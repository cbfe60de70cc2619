/**
  CacheClient: cache-aside reads over the store. A pass-through read caches
  misses as an empty-string tombstone; a logical-expiry read keeps entries
  forever inside a RedisData wrapper and rebuilds a stale one under a lease.
*/
module CacheClient {
  import opened Wrappers
  import opened Strings
  import opened Json
  import opened Redis
  import opened Dto

  /** How JSONUtil writes a bean of type R as a document and reads it back. */
  datatype Codec<!R> = Codec(encode: R -> Json, decode: Json -> Option<R>)

  /** A bean codec: beans are written as objects and read back unchanged. */
  ghost predicate BeanCodec<R(!new)>(codec: Codec<R>)
  {
    forall v: R {:trigger codec.encode(v)} :: codec.encode(v).JObj? && codec.decode(codec.encode(v)) == Some(v)
  }

  /** What the caller's dbFallback does for an id: return a row or null, or throw. */
  datatype Fetch<R> = Row(found: Option<R>) | LoaderThrows

  /** A read's reply (a bean or null, or the exception), whether it called dbFallback, and the store afterwards. */
  datatype Lookup<R> = Lookup(reply: Result<Option<R>>, loaderCalled: bool, after: Keyspace)

  /** RedisData: the logical expiry time (a clock reading in seconds) and the wrapped bean, absent when null. */
  datatype RedisData = RedisData(expireTime: int, data: Option<Json>)

  /** JSONUtil.toJsonStr of a RedisData: null fields are left out. */
  function EncodeRedisData(d: RedisData): (j: Json)
    ensures j.JObj? && "expireTime" in j.fields && j.fields["expireTime"] == JNum(d.expireTime)
    ensures "data" in j.fields <==> d.data.Some?
  {
    match d.data
    case None => JObj(map["expireTime" := JNum(d.expireTime)])
    case Some(data) => JObj(map["expireTime" := JNum(d.expireTime), "data" := data])
  }

  /** A logical-expiry entry as the read sees it: its expiry time and its decoded bean. */
  datatype Wrapped<R> = Wrapped(expireTime: int, data: Option<R>)

  /**
    Reading a RedisData back and casting its data: text that is not a JSON
    object, or an expireTime that is not a time, fails to convert; data that
    is not an object fails the cast to JSONObject; a bean that does not
    convert fails; a missing expireTime is dereferenced when compared.
  */
  function ReadRedisData<R>(v: Value, codec: Codec<R>): (r: Result<Wrapped<R>>)
    ensures r.Ok? ==> v.Doc? && v.json.JObj?
  {
    if !v.Doc? || !v.json.JObj? then Err(BadJson)
    else
      var fields := v.json.fields;
      if "expireTime" in fields && !fields["expireTime"].JNum? then Err(BadJson)
      else if "data" in fields && !fields["data"].JObj? then Err(ClassCast)
      else if "data" in fields && codec.decode(fields["data"]).None? then Err(BadJson)
      else if "expireTime" !in fields then Err(NullPointer)
      else
        var data := if "data" in fields then codec.decode(fields["data"]) else None;
        Ok(Wrapped(fields["expireTime"].n, data))
  }

  /** A wrapper written by setWithLogicalExpire reads back as the time and bean it was given. */
  lemma ReadRedisDataRoundTrip<R(!new)>(codec: Codec<R>, expireTime: int, value: Option<R>)
    requires BeanCodec(codec)
    ensures var data := if value.Some? then Some(codec.encode(value.value)) else None;
      ReadRedisData(Doc(EncodeRedisData(RedisData(expireTime, data))), codec) == Ok(Wrapped(expireTime, value))
  {
    if value.Some? {
      var e := codec.encode(value.value);
      assert e.JObj? && codec.decode(e) == Some(value.value);
    }
  }

  /** toBean of a non-blank string value: only a document written for this bean type converts. */
  function DecodeValue<R>(v: Value, codec: Codec<R>): (r: Result<Option<R>>)
    ensures r.Ok? ==> r.value.Some? && v.Doc? && codec.decode(v.json) == r.value
  {
    if v.Doc? && codec.decode(v.json).Some? then Ok(codec.decode(v.json)) else Err(BadJson)
  }

  /** set(key, value, time, unit): the bean's document under key, expiring after time in unit. */
  function SetStep<R>(kv: Keyspace, codec: Codec<R>, key: string, value: R, time: int, unit: TimeUnit): (c: Cmd<()>)
    ensures c.reply.Ok? <==> ValidTtl(Expiring(time, unit))
    ensures c.reply.Ok? ==> c.after == kv[key := Entry(Doc(codec.encode(value)), Expiring(time, unit))]
    ensures c.reply.Err? ==> c.after == kv
  {
    SetCmd(kv, key, Doc(codec.encode(value)), Expiring(time, unit))
  }

  /** setWithLogicalExpire(key, value, time, unit) at clock reading `now`: the wrapper, with no TTL. */
  function SetWithLogicalExpireStep<R>(kv: Keyspace, codec: Codec<R>, key: string, value: Option<R>,
                                       time: int, unit: TimeUnit, now: int): (after: Keyspace)
    ensures key in after && after[key].ttl == Persistent && after[key].value.Doc?
    ensures AgreeOutside(kv, after, {key})
  {
    var data := if value.Some? then Some(codec.encode(value.value)) else None;
    SetCmd(kv, key, Doc(EncodeRedisData(RedisData(now + ToSeconds(time, unit), data))), Persistent).after
  }

  /** The wrapper setWithLogicalExpire writes holds now + time as its expiry and the bean it was given. */
  lemma SetWithLogicalExpireReadsBack<R(!new)>(kv: Keyspace, codec: Codec<R>, key: string, value: Option<R>,
                                         time: int, unit: TimeUnit, now: int)
    requires BeanCodec(codec)
    ensures var after := SetWithLogicalExpireStep(kv, codec, key, value, time, unit, now);
      ReadRedisData(after[key].value, codec) == Ok(Wrapped(now + ToSeconds(time, unit), value))
  {
    ReadRedisDataRoundTrip(codec, now + ToSeconds(time, unit), value);
  }

  /** queryWithPassThrough(keyPrefix, id, type, dbFallback, time, unit). */
  function PassThroughStep<R>(kv: Keyspace, consts: RedisConstants, keyPrefix: string, id: string, codec: Codec<R>,
                              dbFallback: string -> Fetch<R>, time: int, unit: TimeUnit): (q: Lookup<R>)
    ensures q.loaderCalled <==> keyPrefix + id !in kv
    ensures !q.loaderCalled ==> q.after == kv
    ensures keyPrefix + id in kv && IsBlankValue(kv[keyPrefix + id].value) ==> q.reply == Ok(None)
    ensures keyPrefix + id in kv && !IsBlankValue(kv[keyPrefix + id].value) && q.reply.Ok? ==>
      kv[keyPrefix + id].value.Doc? && q.reply.value == codec.decode(kv[keyPrefix + id].value.json)
    ensures AgreeOutside(kv, q.after, {keyPrefix + id})
  {
    var key := keyPrefix + id;
    match Get(kv, key)
    case WrongTypeRead => Lookup(Err(WrongType), false, kv)
    case Found(v) =>
      if !IsBlankValue(v) then Lookup(DecodeValue(v, codec), false, kv)
      else Lookup(Ok(None), false, kv)
    case Missing =>
      match dbFallback(id)
      case LoaderThrows => Lookup(Err(LoaderFailed), true, kv)
      case Row(None) =>
        var tombstone := SetCmd(kv, key, Str(""), Expiring(consts.cacheNullTtl, Minutes));
        Lookup(if tombstone.reply.Err? then Err(tombstone.reply.fault) else Ok(None), true, tombstone.after)
      case Row(Some(r)) =>
        var cached := SetStep(kv, codec, key, r, time, unit);
        Lookup(if cached.reply.Err? then Err(cached.reply.fault) else Ok(Some(r)), true, cached.after)
  }

  /** A miss whose loader finds nothing writes the "" tombstone for CACHE_NULL_TTL minutes and returns null. */
  lemma PassThroughMissWithoutRow<R(!new)>(kv: Keyspace, consts: RedisConstants, keyPrefix: string, id: string,
                                     codec: Codec<R>, dbFallback: string -> Fetch<R>, time: int, unit: TimeUnit)
    requires keyPrefix + id !in kv && dbFallback(id) == Row(None) && consts.cacheNullTtl > 0
    ensures var q := PassThroughStep(kv, consts, keyPrefix, id, codec, dbFallback, time, unit);
      && q.reply == Ok(None) && q.loaderCalled
      && q.after == kv[keyPrefix + id := Entry(Str(""), ExpiresIn(consts.cacheNullTtl * 60))]
  {}

  /** A miss whose loader finds a row caches it with the caller's TTL and returns it. */
  lemma PassThroughMissWithRow<R(!new)>(kv: Keyspace, consts: RedisConstants, keyPrefix: string, id: string,
                                  codec: Codec<R>, dbFallback: string -> Fetch<R>, time: int, unit: TimeUnit)
    requires keyPrefix + id !in kv && dbFallback(id).Row? && dbFallback(id).found.Some?
    requires ValidTtl(Expiring(time, unit))
    ensures var q := PassThroughStep(kv, consts, keyPrefix, id, codec, dbFallback, time, unit);
      && q.reply == Ok(dbFallback(id).found) && q.loaderCalled
      && q.after == kv[keyPrefix + id := Entry(Doc(codec.encode(dbFallback(id).found.value)), Expiring(time, unit))]
  {}

  /** The tombstone stops the loader: a repeat read after a miss without a row returns null from the cache. */
  lemma {:induction false} PassThroughTombstoneShields<R(!new)>(kv: Keyspace, consts: RedisConstants, keyPrefix: string,
      id: string, codec: Codec<R>, dbFallback: string -> Fetch<R>, time: int, unit: TimeUnit)
    requires keyPrefix + id !in kv && dbFallback(id) == Row(None) && consts.cacheNullTtl > 0
    ensures var first := PassThroughStep(kv, consts, keyPrefix, id, codec, dbFallback, time, unit);
      var second := PassThroughStep(first.after, consts, keyPrefix, id, codec, dbFallback, time, unit);
      && second.reply == Ok(None) && !second.loaderCalled && second.after == first.after
  {
    PassThroughMissWithoutRow(kv, consts, keyPrefix, id, codec, dbFallback, time, unit);
    var first := PassThroughStep(kv, consts, keyPrefix, id, codec, dbFallback, time, unit);
    assert IsBlankValue(first.after[keyPrefix + id].value);
  }

  /** A value stored with set is what a later pass-through read returns, without the loader and without writes. */
  lemma SetThenPassThroughHits<R(!new)>(kv: Keyspace, consts: RedisConstants, keyPrefix: string, id: string,
      codec: Codec<R>, dbFallback: string -> Fetch<R>, value: R, time: int, unit: TimeUnit)
    requires BeanCodec(codec) && ValidTtl(Expiring(time, unit))
    ensures var stored := SetStep(kv, codec, keyPrefix + id, value, time, unit).after;
      var q := PassThroughStep(stored, consts, keyPrefix, id, codec, dbFallback, time, unit);
      q.reply == Ok(Some(value)) && !q.loaderCalled && q.after == stored
  {
    var e := codec.encode(value);
    assert e.JObj? && codec.decode(e) == Some(value);
  }

  /**
    queryWithLoginExpire(keyPrefix, id, type, time, unit, dbFallback) at clock
    reading `now`. The rebuild the executor runs is taken as one step right
    after the read, with its own clock reading `rebuildNow`.
  */
  function LogicalExpireStep<R>(kv: Keyspace, consts: RedisConstants, keyPrefix: string, id: string, codec: Codec<R>,
                                time: int, unit: TimeUnit, dbFallback: string -> Fetch<R>,
                                now: int, rebuildNow: int): (q: Lookup<R>)
    ensures keyPrefix + id !in kv ==> q == Lookup(Ok(None), false, kv)
    ensures q.loaderCalled ==> consts.lockShopKey + id !in kv && q.reply.Ok?
    ensures !q.loaderCalled ==> q.after == kv
    ensures q.loaderCalled ==> consts.lockShopKey + id !in q.after
    ensures AgreeOutside(kv, q.after, {keyPrefix + id, consts.lockShopKey + id})
  {
    var key := keyPrefix + id;
    match Get(kv, key)
    case WrongTypeRead => Lookup(Err(WrongType), false, kv)
    case Missing => Lookup(Ok(None), false, kv)
    case Found(v) =>
      if IsBlankValue(v) then Lookup(Ok(None), false, kv)
      else
        match ReadRedisData(v, codec)
        case Err(f) => Lookup(Err(f), false, kv)
        case Ok(entry) =>
          if entry.expireTime > now then Lookup(Ok(entry.data), false, kv)
          else
            var lockKey := consts.lockShopKey + id;
            var lease := TryLockKeyStep(kv, lockKey);
            if !lease.reply.value then Lookup(Ok(entry.data), false, kv)
            else
              var rebuilt := match dbFallback(id)
                case LoaderThrows => lease.after
                case Row(r1) => SetWithLogicalExpireStep(lease.after, codec, key, r1, time, unit, rebuildNow);
              Lookup(Ok(entry.data), true, UnlockKeyStep(rebuilt, lockKey))
  }

  /** A missing or blank entry reads as null, with no lease taken and no loader call. */
  lemma LogicalExpireBlank<R(!new)>(kv: Keyspace, consts: RedisConstants, keyPrefix: string, id: string, codec: Codec<R>,
                              time: int, unit: TimeUnit, dbFallback: string -> Fetch<R>, now: int, rebuildNow: int)
    requires keyPrefix + id !in kv || IsBlankValue(kv[keyPrefix + id].value)
    ensures LogicalExpireStep(kv, consts, keyPrefix, id, codec, time, unit, dbFallback, now, rebuildNow)
      == Lookup(Ok(None), false, kv)
  {}

  /** An entry whose expireTime is strictly after now returns its data and touches nothing. */
  lemma LogicalExpireFresh<R(!new)>(kv: Keyspace, consts: RedisConstants, keyPrefix: string, id: string, codec: Codec<R>,
                              time: int, unit: TimeUnit, dbFallback: string -> Fetch<R>, now: int, rebuildNow: int)
    requires keyPrefix + id in kv && !IsBlankValue(kv[keyPrefix + id].value)
    requires var w := ReadRedisData(kv[keyPrefix + id].value, codec); w.Ok? && w.value.expireTime > now
    ensures LogicalExpireStep(kv, consts, keyPrefix, id, codec, time, unit, dbFallback, now, rebuildNow)
      == Lookup(Ok(ReadRedisData(kv[keyPrefix + id].value, codec).value.data), false, kv)
  {}

  /**
    An entry whose expireTime is now or earlier returns its stale data. It is
    rebuilt exactly when the lease key is free: the loader's row is wrapped
    with expiry rebuildNow + time, or the entry is kept when the loader
    throws, and the lease key is deleted either way.
  */
  lemma LogicalExpireStale<R(!new)>(kv: Keyspace, consts: RedisConstants, keyPrefix: string, id: string, codec: Codec<R>,
                              time: int, unit: TimeUnit, dbFallback: string -> Fetch<R>, now: int, rebuildNow: int)
    requires BeanCodec(codec)
    requires keyPrefix + id != consts.lockShopKey + id
    requires keyPrefix + id in kv && !IsBlankValue(kv[keyPrefix + id].value)
    requires var w := ReadRedisData(kv[keyPrefix + id].value, codec); w.Ok? && w.value.expireTime <= now
    ensures var q := LogicalExpireStep(kv, consts, keyPrefix, id, codec, time, unit, dbFallback, now, rebuildNow);
      var key := keyPrefix + id;
      && q.reply == Ok(ReadRedisData(kv[key].value, codec).value.data)
      && (q.loaderCalled <==> consts.lockShopKey + id !in kv)
      && (q.loaderCalled && dbFallback(id).Row? ==>
            key in q.after && q.after[key].ttl == Persistent
            && ReadRedisData(q.after[key].value, codec)
               == Ok(Wrapped(rebuildNow + ToSeconds(time, unit), dbFallback(id).found)))
      && (q.loaderCalled && dbFallback(id).LoaderThrows? ==> q.after == kv)
  {
    var key, lockKey := keyPrefix + id, consts.lockShopKey + id;
    if lockKey !in kv {
      var held := TryLockKeyStep(kv, lockKey).after;
      if dbFallback(id).Row? {
        var rebuilt := SetWithLogicalExpireStep(held, codec, key, dbFallback(id).found, time, unit, rebuildNow);
        SetWithLogicalExpireReadsBack(held, codec, key, dbFallback(id).found, time, unit, rebuildNow);
        assert UnlockKeyStep(rebuilt, lockKey)[key] == rebuilt[key];
      } else {
        assert UnlockKeyStep(held, lockKey) == kv;
      }
    }
  }

  /** A wrapper written by setWithLogicalExpire is read back as fresh until its expiry time. */
  lemma SetWithLogicalExpireThenRead<R(!new)>(kv: Keyspace, consts: RedisConstants, keyPrefix: string, id: string,
      codec: Codec<R>, value: R, time: int, unit: TimeUnit, setAt: int, dbFallback: string -> Fetch<R>,
      readTime: int, readUnit: TimeUnit, now: int, rebuildNow: int)
    requires BeanCodec(codec) && now < setAt + ToSeconds(time, unit)
    ensures var stored := SetWithLogicalExpireStep(kv, codec, keyPrefix + id, Some(value), time, unit, setAt);
      LogicalExpireStep(stored, consts, keyPrefix, id, codec, readTime, readUnit, dbFallback, now, rebuildNow)
        == Lookup(Ok(Some(value)), false, stored)
  {
    SetWithLogicalExpireReadsBack(kv, codec, keyPrefix + id, Some(value), time, unit, setAt);
  }

  /** CacheClient.tryLock(key): SET NX of "1" for 10 seconds; a null reply counts as not acquired. */
  function TryLockKeyStep(kv: Keyspace, key: string): (c: Cmd<bool>)
    ensures c.reply.Ok? && (c.reply.value <==> key !in kv)
    ensures c.reply.value ==> c.after == kv[key := Entry(Str("1"), ExpiresIn(10))]
    ensures !c.reply.value ==> c.after == kv
  {
    var attempt := SetIfAbsentCmd(kv, key, Str("1"), Expiring(10, Seconds));
    Cmd(Ok(IsTrue(attempt.reply.value)), attempt.after)
  }

  /** CacheClient.unLocak(key): DEL, whoever set it. */
  function UnlockKeyStep(kv: Keyspace, key: string): (after: Keyspace)
    ensures key !in after && AgreeOutside(kv, after, {key})
  {
    DeleteCmd(kv, key).after
  }

  /** The cache client bean over the shared store template. */
  class CacheClient {
    const template: Template
    const consts: RedisConstants

    constructor (template: Template, consts: RedisConstants)
      ensures this.template == template && this.consts == consts
    {
      this.template := template;
      this.consts := consts;
    }

    method Set<R>(codec: Codec<R>, key: string, value: R, time: int, unit: TimeUnit) returns (r: Result<()>)
      modifies template
      ensures Cmd(r, template.kv) == SetStep(old(template.kv), codec, key, value, time, unit)
    {
      r := template.Set(key, Doc(codec.encode(value)), Expiring(time, unit));
    }

    method SetWithLogicalExpire<R>(codec: Codec<R>, key: string, value: Option<R>, time: int, unit: TimeUnit, now: int)
      modifies template
      ensures template.kv == SetWithLogicalExpireStep(old(template.kv), codec, key, value, time, unit, now)
    {
      var data := if value.Some? then Some(codec.encode(value.value)) else None;
      var redisData := RedisData(now + ToSeconds(time, unit), data);
      var _ := template.Set(key, Doc(EncodeRedisData(redisData)), Persistent);
    }

    method QueryWithPassThrough<R>(keyPrefix: string, id: string, codec: Codec<R>, dbFallback: string -> Fetch<R>,
                                   time: int, unit: TimeUnit) returns (r: Result<Option<R>>, loaderCalled: bool)
      modifies template
      ensures Lookup(r, loaderCalled, template.kv)
        == PassThroughStep(old(template.kv), consts, keyPrefix, id, codec, dbFallback, time, unit)
    {
      var key := keyPrefix + id;
      var json := template.Read(key);
      loaderCalled := false;
      if json.WrongTypeRead? {
        r := Err(WrongType);
        return;
      }
      if json.Found? && !IsBlankValue(json.value) {
        r := DecodeValue(json.value, codec);
        return;
      }
      if json.Found? {
        r := Ok(None);
        return;
      }
      loaderCalled := true;
      var fetched := dbFallback(id);
      match fetched
      case LoaderThrows =>
        r := Err(LoaderFailed);
      case Row(None) =>
        var written := template.Set(key, Str(""), Expiring(consts.cacheNullTtl, Minutes));
        r := if written.Err? then Err(written.fault) else Ok(None);
      case Row(Some(row)) =>
        var written := Set(codec, key, row, time, unit);
        r := if written.Err? then Err(written.fault) else Ok(Some(row));
    }

    method QueryWithLogicalExpire<R>(keyPrefix: string, id: string, codec: Codec<R>, time: int, unit: TimeUnit,
                                     dbFallback: string -> Fetch<R>, now: int, rebuildNow: int)
      returns (r: Result<Option<R>>, loaderCalled: bool)
      modifies template
      ensures Lookup(r, loaderCalled, template.kv)
        == LogicalExpireStep(old(template.kv), consts, keyPrefix, id, codec, time, unit, dbFallback, now, rebuildNow)
    {
      var key := keyPrefix + id;
      var json := template.Read(key);
      loaderCalled := false;
      if json.WrongTypeRead? {
        r := Err(WrongType);
        return;
      }
      if json.Missing? || IsBlankValue(json.value) {
        r := Ok(None);
        return;
      }
      var redisData := ReadRedisData(json.value, codec);
      if redisData.Err? {
        r := Err(redisData.fault);
        return;
      }
      if redisData.value.expireTime > now {
        r := Ok(redisData.value.data);
        return;
      }
      var lockKey := consts.lockShopKey + id;
      var isLock := TryLock(lockKey);
      if isLock {
        loaderCalled := true;
        var fetched := dbFallback(id);
        if fetched.Row? {
          SetWithLogicalExpire(codec, key, fetched.found, time, unit, rebuildNow);
        }
        UnLocak(lockKey);
      }
      r := Ok(redisData.value.data);
    }

    method TryLock(key: string) returns (r: bool)
      modifies template
      ensures Cmd(Ok(r), template.kv) == TryLockKeyStep(old(template.kv), key)
    {
      var isFlag := template.SetIfAbsent(key, Str("1"), Expiring(10, Seconds));
      r := IsTrue(isFlag.value);
    }

    method UnLocak(key: string)
      modifies template
      ensures template.kv == UnlockKeyStep(old(template.kv), key)
    {
      var _ := template.Delete(key);
    }
  }
}
