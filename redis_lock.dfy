/**
  SimpleRedisLock: a lease on the key "lock:" + name, taken with SET NX EX
  and released with DEL. The lease records the holder's thread id but
  release never looks at it.
*/
module RedisLock {
  import opened Wrappers
  import opened Strings
  import opened Redis

  const KEY_PREFIX: string := "lock:"

  function LockKey(name: string): string { KEY_PREFIX + name }

  /** tryLock(timeoutSec) by thread `threadId`: SET NX of the thread id, expiring after timeoutSec seconds. */
  function TryLockStep(kv: Keyspace, name: string, threadId: int, timeoutSec: int): (c: Cmd<bool>)
    ensures c.reply.Err? <==> timeoutSec <= 0
    ensures c.reply == Ok(true) <==> timeoutSec > 0 && LockKey(name) !in kv
    ensures c.reply == Ok(true) ==>
      c.after == kv[LockKey(name) := Entry(Str(LongText(threadId)), ExpiresIn(timeoutSec))]
    ensures c.reply != Ok(true) ==> c.after == kv
  {
    var attempt := SetIfAbsentCmd(kv, LockKey(name), Str(LongText(threadId)), Expiring(timeoutSec, Seconds));
    match attempt.reply
    case Err(f) => Cmd(Err(f), kv)
    case Ok(acquired) => Cmd(Ok(IsTrue(acquired)), attempt.after)
  }

  /** unlock(): DEL of the lock key, whoever holds it. */
  function UnlockStep(kv: Keyspace, name: string): (after: Keyspace)
    ensures LockKey(name) !in after
    ensures AgreeOutside(kv, after, {LockKey(name)})
  {
    DeleteCmd(kv, LockKey(name)).after
  }

  /** While one thread holds the lease, every other tryLock fails and changes nothing. */
  lemma TryLockExclusive(kv: Keyspace, name: string, holder: int, other: int, timeoutSec: int, otherTimeout: int)
    requires TryLockStep(kv, name, holder, timeoutSec).reply == Ok(true)
    ensures var after := TryLockStep(kv, name, holder, timeoutSec).after;
      var second := TryLockStep(after, name, other, otherTimeout);
      second.reply != Ok(true) && second.after == after
  {}

  /** Acquiring a free lease and releasing it leaves the store as it was. */
  lemma TryLockUnlockRestores(kv: Keyspace, name: string, threadId: int, timeoutSec: int)
    requires TryLockStep(kv, name, threadId, timeoutSec).reply == Ok(true)
    ensures UnlockStep(TryLockStep(kv, name, threadId, timeoutSec).after, name) == kv
  {
    var after := TryLockStep(kv, name, threadId, timeoutSec).after;
    assert UnlockStep(after, name) == after - {LockKey(name)};
  }

  /**
    There is no ownership check: with the lease held by `holder`, an unlock
    issued by any thread frees it and another thread then acquires it.
  */
  lemma UnlockByNonHolderFreesLease(kv: Keyspace, name: string, holder: int, other: int, timeoutSec: int)
    requires timeoutSec > 0 && TryLockStep(kv, name, holder, timeoutSec).reply == Ok(true)
    ensures var held := TryLockStep(kv, name, holder, timeoutSec).after;
      var stolen := TryLockStep(UnlockStep(held, name), name, other, timeoutSec);
      && held[LockKey(name)].value == Str(LongText(holder))
      && stolen.reply == Ok(true)
      && stolen.after[LockKey(name)].value == Str(LongText(other))
  {}

  /** After unlock, the next tryLock with a valid timeout succeeds. */
  lemma UnlockThenTryLock(kv: Keyspace, name: string, threadId: int, timeoutSec: int)
    requires timeoutSec > 0
    ensures TryLockStep(UnlockStep(kv, name), name, threadId, timeoutSec).reply == Ok(true)
  {}

  /** A lock object: its name and the shared store template. */
  class SimpleRedisLock {
    const name: string
    const template: Template

    constructor (name: string, template: Template)
      ensures this.name == name && this.template == template
    {
      this.name := name;
      this.template := template;
    }

    /** tryLock(timeoutSec) called on the thread with id `threadId`; a store error is thrown to the caller. */
    method TryLock(threadId: int, timeoutSec: int) returns (r: Result<bool>)
      modifies template
      ensures Cmd(r, template.kv) == TryLockStep(old(template.kv), name, threadId, timeoutSec)
    {
      var success := template.SetIfAbsent(KEY_PREFIX + name, Str(LongText(threadId)), Expiring(timeoutSec, Seconds));
      match success
      case Err(f) => r := Err(f);
      case Ok(acquired) => r := Ok(IsTrue(acquired));
    }

    method Unlock()
      modifies template
      ensures template.kv == UnlockStep(old(template.kv), name)
    {
      var _ := template.Delete(KEY_PREFIX + name);
    }
  }
}
