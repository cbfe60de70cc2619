/**
  IFollowServiceImpl: who follows whom, kept twice — as tb_follow rows and as
  one store set per follower ("follows:" + userId) holding the followed ids as
  text — and the common follows of two users, read from the sets.
*/
module FollowService {
  import opened Wrappers
  import opened Strings
  import opened Redis
  import opened Dto
  import opened UserService

  /** A tb_follow row: `userId` follows `followUserId`. */
  datatype Follow = Follow(userId: int, followUserId: int)

  function FollowKey(userId: int): string
  {
    "follows:" + LongText(userId)
  }

  lemma FollowKeyInjective(a: int, b: int)
    ensures FollowKey(a) == FollowKey(b) <==> a == b
  {
    if FollowKey(a) == FollowKey(b) {
      assert LongText(a) == FollowKey(a)[8..] && LongText(b) == FollowKey(b)[8..];
      LongTextInjective(a, b);
    }
  }

  // ---------------------------------------------------------------------
  // The table side

  /** query().eq("user_id", u).eq("follow_user_id", t).count() */
  function CountFollows(rows: seq<Follow>, u: int, t: int): (n: nat)
    ensures n <= |rows|
    ensures n == 0 <==> Follow(u, t) !in rows
  {
    if rows == [] then 0
    else
      var n := |rows| - 1;
      assert rows == rows[..n] + [rows[n]];
      CountFollows(rows[..n], u, t) + (if rows[n] == Follow(u, t) then 1 else 0)
  }

  /** remove(user_id = u and follow_user_id = t): every matching row goes, the rest keep their order. */
  function Unfollowed(rows: seq<Follow>, u: int, t: int): (r: seq<Follow>)
    ensures forall f :: f in r <==> f in rows && f != Follow(u, t)
    ensures Follow(u, t) !in rows ==> r == rows
  {
    if rows == [] then []
    else
      var n := |rows| - 1;
      assert rows == rows[..n] + [rows[n]];
      Unfollowed(rows[..n], u, t) + (if rows[n] == Follow(u, t) then [] else [rows[n]])
  }

  /** The ids user u follows according to the table, as the text the store set holds. */
  function Followed(rows: seq<Follow>, u: int): set<string>
  {
    set f | f in rows && f.userId == u :: LongText(f.followUserId)
  }

  lemma FollowedMembers(rows: seq<Follow>, u: int, t: int)
    ensures LongText(t) in Followed(rows, u) <==> Follow(u, t) in rows
  {
    if LongText(t) in Followed(rows, u) {
      var f :| f in rows && f.userId == u && LongText(f.followUserId) == LongText(t);
      LongTextInjective(f.followUserId, t);
    }
    if Follow(u, t) in rows {
      assert LongText(Follow(u, t).followUserId) in Followed(rows, u);
    }
  }

  /** The store mirrors the table: each user's follow set holds exactly the ids the table says they follow. */
  ghost predicate Synced(rows: seq<Follow>, kv: Keyspace)
  {
    forall u :: MembersOf(kv, FollowKey(u)) == Ok(Followed(rows, u))
  }

  // ---------------------------------------------------------------------
  // follow

  /** What follow replies (or throws), the table and the store afterwards. */
  datatype FollowReply = FollowReply(reply: Result<Response<()>>, rows: seq<Follow>, after: Keyspace)

  /**
    follow(followUserId, isFollow) by the current user `userId`. A null
    isFollow fails on unboxing. Following inserts a row (an insert always
    reports success) and then adds to the set; unfollowing deletes the
    matching rows and removes from the set only when a row went.
  */
  function FollowStep(rows: seq<Follow>, kv: Keyspace, userId: int, followUserId: int, isFollow: Option<bool>)
    : (q: FollowReply)
    ensures isFollow.None? ==> q == FollowReply(Err(NullPointer), rows, kv)
    ensures isFollow == Some(true) ==> q.rows == rows + [Follow(userId, followUserId)]
    ensures isFollow == Some(false) ==> q.rows == Unfollowed(rows, userId, followUserId)
    ensures isFollow == Some(false) && Follow(userId, followUserId) !in rows ==>
              q == FollowReply(Ok(Success(())), rows, kv)
    ensures q.reply.Ok? ==> q.reply.value == Success(())
    ensures q.reply.Err? && isFollow.Some? ==> q.reply.fault == WrongType && q.after == kv
    ensures AgreeOutside(kv, q.after, {FollowKey(userId)})
  {
    var key := FollowKey(userId);
    match isFollow
    case None => FollowReply(Err(NullPointer), rows, kv)
    case Some(true) =>
      var saved := rows + [Follow(userId, followUserId)];
      var add := SetAddCmd(kv, key, LongText(followUserId));
      if add.reply.Err? then FollowReply(Err(add.reply.fault), saved, kv)
      else FollowReply(Ok(Success(())), saved, add.after)
    case Some(false) =>
      var isSuccess := CountFollows(rows, userId, followUserId) > 0;
      var remaining := Unfollowed(rows, userId, followUserId);
      if !isSuccess then FollowReply(Ok(Success(())), remaining, kv)
      else
        var rem := SetRemoveCmd(kv, key, LongText(followUserId));
        if rem.reply.Err? then FollowReply(Err(rem.reply.fault), remaining, kv)
        else FollowReply(Ok(Success(())), remaining, rem.after)
  }

  lemma FollowedAfterFollow(rows: seq<Follow>, u: int, t: int, v: int)
    ensures Followed(rows + [Follow(u, t)], v) == Followed(rows, v) + (if v == u then {LongText(t)} else {})
  {
    var after := rows + [Follow(u, t)];
    forall s | s in Followed(after, v) ensures s in Followed(rows, v) + (if v == u then {LongText(t)} else {}) {
      var f :| f in after && f.userId == v && LongText(f.followUserId) == s;
      if f != Follow(u, t) {
        assert f in rows;
      }
    }
    forall s | s in Followed(rows, v) ensures s in Followed(after, v) {
      var f :| f in rows && f.userId == v && LongText(f.followUserId) == s;
      assert f in after;
    }
    if v == u {
      assert Follow(u, t) in after;
    }
  }

  lemma FollowedAfterUnfollow(rows: seq<Follow>, u: int, t: int, v: int)
    ensures Followed(Unfollowed(rows, u, t), v) == Followed(rows, v) - (if v == u then {LongText(t)} else {})
  {
    var after := Unfollowed(rows, u, t);
    var gone: set<string> := if v == u then {LongText(t)} else {};
    forall s | s in Followed(after, v) ensures s in Followed(rows, v) - gone {
      var f :| f in after && f.userId == v && LongText(f.followUserId) == s;
      if v == u {
        LongTextInjective(f.followUserId, t);
      }
    }
    forall s | s in Followed(rows, v) - gone ensures s in Followed(after, v) {
      var f :| f in rows && f.userId == v && LongText(f.followUserId) == s;
      assert f in after;
    }
  }

  /** One follower's set after follow, given that it and the acting user's set mirrored the table before. */
  lemma FollowKeepsKey(rows: seq<Follow>, kv: Keyspace, userId: int, followUserId: int, isFollow: bool, v: int)
    requires MembersOf(kv, FollowKey(userId)) == Ok(Followed(rows, userId))
    requires MembersOf(kv, FollowKey(v)) == Ok(Followed(rows, v))
    ensures var q := FollowStep(rows, kv, userId, followUserId, Some(isFollow));
      q.reply == Ok(Success(())) && MembersOf(q.after, FollowKey(v)) == Ok(Followed(q.rows, v))
  {
    FollowKeyInjective(v, userId);
    if isFollow {
      FollowedAfterFollow(rows, userId, followUserId, v);
      if v != userId {
        assert Followed(rows, v) + {} == Followed(rows, v);
      }
    } else if Follow(userId, followUserId) in rows {
      FollowedAfterUnfollow(rows, userId, followUserId, v);
      if v != userId {
        assert Followed(rows, v) - {} == Followed(rows, v);
      }
    }
  }

  /**
    follow keeps the store in step with the table: from a synchronised state
    it never throws, and the state after it is synchronised again.
  */
  lemma FollowKeepsSynced(rows: seq<Follow>, kv: Keyspace, userId: int, followUserId: int, isFollow: bool)
    requires Synced(rows, kv)
    ensures var q := FollowStep(rows, kv, userId, followUserId, Some(isFollow));
      q.reply == Ok(Success(())) && Synced(q.rows, q.after)
  {
    assert MembersOf(kv, FollowKey(userId)) == Ok(Followed(rows, userId));
    FollowKeepsKey(rows, kv, userId, followUserId, isFollow, userId);
    var q := FollowStep(rows, kv, userId, followUserId, Some(isFollow));
    forall v ensures MembersOf(q.after, FollowKey(v)) == Ok(Followed(q.rows, v)) {
      assert MembersOf(kv, FollowKey(v)) == Ok(Followed(rows, v));
      FollowKeepsKey(rows, kv, userId, followUserId, isFollow, v);
    }
  }

  // ---------------------------------------------------------------------
  // isFollow

  /** isFollow(followUserId) by the current user `userId`: whether the count is positive. */
  function IsFollowStep(rows: seq<Follow>, userId: int, followUserId: int): (r: Response<bool>)
    ensures r == Success(Follow(userId, followUserId) in rows)
  {
    Success(CountFollows(rows, userId, followUserId) > 0)
  }

  /** In a synchronised state the table's answer is the set's membership. */
  lemma IsFollowAgreesWithSet(rows: seq<Follow>, kv: Keyspace, userId: int, followUserId: int)
    requires Synced(rows, kv)
    ensures IsFollowStep(rows, userId, followUserId).data
      <==> LongText(followUserId) in MembersOf(kv, FollowKey(userId)).value
  {
    assert MembersOf(kv, FollowKey(userId)) == Ok(Followed(rows, userId));
    FollowedMembers(rows, userId, followUserId);
  }

  /** Following makes isFollow true; unfollowing makes it false. */
  lemma FollowThenIsFollow(rows: seq<Follow>, kv: Keyspace, userId: int, followUserId: int, isFollow: bool)
    ensures var q := FollowStep(rows, kv, userId, followUserId, Some(isFollow));
      IsFollowStep(q.rows, userId, followUserId) == Success(isFollow)
  {
    if isFollow {
      assert (rows + [Follow(userId, followUserId)])[|rows|] == Follow(userId, followUserId);
    }
  }

  // ---------------------------------------------------------------------
  // followCommons

  /** Long.valueOf on every member: one that does not parse throws. */
  function ParseIds(members: set<string>): (r: Result<set<int>>)
    ensures r.Ok? <==> forall m :: m in members ==> ParseLong(m).Some?
    ensures r.Ok? ==> forall m :: m in members ==> ParseLong(m).value in r.value
    ensures r.Ok? ==> forall i :: i in r.value ==> exists m :: m in members && ParseLong(m) == Some(i)
    ensures r.Err? ==> r.fault == NumberFormat
  {
    if forall m :: m in members ==> ParseLong(m).Some? then
      Ok(set m | m in members :: ParseLong(m).value)
    else Err(NumberFormat)
  }

  function ToDto(u: User): UserDto
  {
    UserDto(u.id, u.nickName, u.icon)
  }

  /** listByIds(ids) mapped to UserDTOs: the rows whose key is listed, in table order. */
  function ListByIds(users: seq<User>, ids: set<int>): (r: seq<UserDto>)
    ensures |r| <= |users|
    ensures forall d :: d in r <==> exists u :: u in users && u.id in ids && d == ToDto(u)
  {
    if users == [] then []
    else
      var n := |users| - 1;
      assert users == users[..n] + [users[n]];
      ListByIds(users[..n], ids) + (if users[n].id in ids then [ToDto(users[n])] else [])
  }

  /** followCommons(id) by the current user `userId`, over the user table `users`. */
  function FollowCommonsStep(kv: Keyspace, users: seq<User>, userId: int, id: int): (r: Result<Response<seq<UserDto>>>)
    ensures r.Ok? ==> r.value.Success?
    ensures r.Err? <==>
              || Intersect(kv, FollowKey(userId), FollowKey(id)).Err?
              || ParseIds(Intersect(kv, FollowKey(userId), FollowKey(id)).value).Err?
    ensures Intersect(kv, FollowKey(userId), FollowKey(id)) == Ok({}) ==> r == Ok(Success([]))
  {
    match Intersect(kv, FollowKey(userId), FollowKey(id))
    case Err(f) => Err(f)
    case Ok(intersect) =>
      if intersect == {} then Ok(Success([]))
      else
        match ParseIds(intersect)
        case Err(f) => Err(f)
        case Ok(ids) => Ok(Success(ListByIds(users, ids)))
  }

  /** Every followed id in the table is a 64-bit number, as the column is. */
  predicate LongIds(rows: seq<Follow>)
  {
    forall f :: f in rows ==> LONG_MIN <= f.followUserId <= LONG_MAX
  }

  /**
    In a synchronised state, followCommons lists exactly the users of the
    table whom both users follow.
  */
  lemma FollowCommonsAreMutual(rows: seq<Follow>, kv: Keyspace, users: seq<User>, userId: int, id: int)
    requires Synced(rows, kv) && LongIds(rows)
    ensures var r := FollowCommonsStep(kv, users, userId, id);
      && r.Ok?
      && (forall u :: u in users ==>
            (ToDto(u) in r.value.data <==> Follow(userId, u.id) in rows && Follow(id, u.id) in rows))
      && (forall d :: d in r.value.data ==> exists u :: u in users && d == ToDto(u))
  {
    var mine, theirs := Followed(rows, userId), Followed(rows, id);
    assert MembersOf(kv, FollowKey(userId)) == Ok(mine);
    assert MembersOf(kv, FollowKey(id)) == Ok(theirs);
    var intersect := Intersect(kv, FollowKey(userId), FollowKey(id)).value;
    assert intersect == mine * theirs;
    forall m | m in intersect ensures ParseLong(m).Some? && m == LongText(ParseLong(m).value) {
      var f :| f in rows && f.userId == userId && LongText(f.followUserId) == m;
      ParseLongText(f.followUserId);
    }
    var r := FollowCommonsStep(kv, users, userId, id);
    forall u | u in users
      ensures ToDto(u) in r.value.data <==> Follow(userId, u.id) in rows && Follow(id, u.id) in rows
    {
      FollowedMembers(rows, userId, u.id);
      FollowedMembers(rows, id, u.id);
      if Follow(userId, u.id) in rows && Follow(id, u.id) in rows {
        assert LongText(u.id) in intersect;
        ParseLongText(u.id);
      }
      if ToDto(u) in r.value.data {
        var ids := ParseIds(intersect).value;
        var w :| w in users && w.id in ids && ToDto(u) == ToDto(w);
        var m :| m in intersect && ParseLong(m) == Some(w.id);
        assert m == LongText(u.id);
      }
    }
  }

  // ---------------------------------------------------------------------
  // The service

  /** The follow service: tb_follow, the shared store template, and the user service it lists users through. */
  class FollowServiceImpl {
    var rows: seq<Follow>
    const template: Template
    const userService: UserServiceImpl

    constructor (rows: seq<Follow>, template: Template, userService: UserServiceImpl)
      ensures this.rows == rows && this.template == template && this.userService == userService
    {
      this.rows := rows;
      this.template := template;
      this.userService := userService;
    }

    /** follow(followUserId, isFollow) by the current user `userId`. */
    method FollowUser(userId: int, followUserId: int, isFollow: Option<bool>) returns (r: Result<Response<()>>)
      modifies this, template
      ensures FollowReply(r, rows, template.kv) == FollowStep(old(rows), old(template.kv), userId, followUserId, isFollow)
    {
      if isFollow.None? {
        return Err(NullPointer);
      }
      var key := FollowKey(userId);
      if isFollow.value {
        rows := rows + [Follow(userId, followUserId)];
        var added := template.SetAdd(key, LongText(followUserId));
        if added.Err? {
          return Err(added.fault);
        }
      } else {
        var isSuccess := CountFollows(rows, userId, followUserId) > 0;
        rows := Unfollowed(rows, userId, followUserId);
        if isSuccess {
          var removed := template.SetRemove(key, LongText(followUserId));
          if removed.Err? {
            return Err(removed.fault);
          }
        }
      }
      r := Ok(Success(()));
    }

    /** isFollow(followUserId) by the current user `userId`. */
    method IsFollow(userId: int, followUserId: int) returns (r: Response<bool>)
      ensures r == Success(Follow(userId, followUserId) in rows)
    {
      var count := CountFollows(rows, userId, followUserId);
      r := Success(count > 0);
    }

    /** followCommons(id) by the current user `userId`. */
    method FollowCommons(userId: int, id: int) returns (r: Result<Response<seq<UserDto>>>)
      ensures r == FollowCommonsStep(template.kv, userService.users.rows, userId, id)
    {
      var intersect := template.SetIntersect(FollowKey(userId), FollowKey(id));
      if intersect.Err? {
        return Err(intersect.fault);
      }
      if intersect.value == {} {
        return Ok(Success([]));
      }
      var ids := ParseIds(intersect.value);
      if ids.Err? {
        return Err(ids.fault);
      }
      r := Ok(Success(ListByIds(userService.users.rows, ids.value)));
    }
  }
}
