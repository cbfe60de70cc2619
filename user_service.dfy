/**
  UserServiceImpl: phone-number sign-up by a verification code kept in the
  store, a login that opens a session hash under a fresh token, and the daily
  sign-in bitmap. The phone-number check (RegexUtils) is not part of this
  model: the service holds it as a predicate it was built with.
*/
module UserService {
  import opened Wrappers
  import opened Strings
  import opened Redis
  import opened Dto
  import opened IdWorker

  /** A tb_user row: the auto-increment key, the phone, and the columns the session keeps. */
  datatype User = User(id: int, phone: string, nickName: Option<string>, icon: Option<string>)

  /** tb_user: its rows in insertion order and the next auto-increment key. */
  datatype Users = Users(rows: seq<User>, nextId: int)

  /** Every key was handed out by the counter, and no two rows share one. */
  predicate ValidUsers(t: Users)
  {
    && (forall i :: 0 <= i < |t.rows| ==> t.rows[i].id < t.nextId)
    && (forall i, j :: 0 <= i < j < |t.rows| ==> t.rows[i].id != t.rows[j].id)
  }

  // ---------------------------------------------------------------------
  // query().eq("phone", phone).one()

  /** The rows whose phone column equals `phone`, in table order. */
  function WithPhone(rows: seq<User>, phone: string): (m: seq<User>)
    ensures forall u :: u in m <==> u in rows && u.phone == phone
    ensures |m| <= |rows|
  {
    if rows == [] then []
    else
      var n := |rows| - 1;
      assert rows == rows[..n] + [rows[n]];
      WithPhone(rows[..n], phone) + (if rows[n].phone == phone then [rows[n]] else [])
  }

  /** A single-row query: null for no match, the row for one, an exception for several. */
  function One(rows: seq<User>, phone: string): (r: Result<Option<User>>)
    ensures r == Ok(None) <==> forall u :: u in rows ==> u.phone != phone
    ensures r.Ok? && r.value.Some? ==> r.value.value in rows && r.value.value.phone == phone
    ensures r.Err? ==> r.fault == TooManyResults
  {
    var m := WithPhone(rows, phone);
    if |m| == 0 then Ok(None)
    else if |m| == 1 then
      assert m[0] in m;
      Ok(Some(m[0]))
    else
      assert m[0] in m;
      Err(TooManyResults)
  }

  // ---------------------------------------------------------------------
  // createUserWithPhone

  /** The user a login goes on with, and the table after it. */
  datatype Account = Account(user: User, table: Users)

  /** save(user): the row gets the next auto-increment key and is appended. */
  function NewUser(t: Users, phone: string, nickName: string): (a: Account)
    ensures a.user.phone == phone && a.user.nickName == Some(nickName)
    ensures a.table.rows == t.rows + [a.user] && a.table.nextId == t.nextId + 1
    ensures forall u :: u in t.rows ==> u.id != a.user.id || !ValidUsers(t)
    ensures ValidUsers(t) ==> ValidUsers(a.table)
  {
    var user := User(t.nextId, phone, Some(nickName), None);
    Account(user, Users(t.rows + [user], t.nextId + 1))
  }

  /** The user found by phone, or a new one named by the prefix and the random suffix. */
  function AccountFor(t: Users, phone: string, prefix: string, suffix: string): (r: Result<Account>)
    ensures r.Ok? ==> r.value.user.phone == phone && r.value.user in r.value.table.rows
    ensures r.Ok? && r.value.table != t ==> One(t.rows, phone) == Ok(None) && r.value == NewUser(t, phone, prefix + suffix)
    ensures r.Ok? <==> One(t.rows, phone).Ok?
  {
    match One(t.rows, phone)
    case Err(f) => Err(f)
    case Ok(Some(u)) => Ok(Account(u, t))
    case Ok(None) =>
      var a := NewUser(t, phone, prefix + suffix);
      assert a.user == a.table.rows[|t.rows|];
      Ok(a)
  }

  // ---------------------------------------------------------------------
  // The session hash

  /**
    BeanUtil.beanToMap of the UserDTO (id, nickName, icon), skipping null
    fields and storing every value as its toString.
  */
  function UserMap(u: User): (m: map<string, string>)
    ensures "id" in m && m["id"] == LongText(u.id)
    ensures "nickName" in m <==> u.nickName.Some?
    ensures "icon" in m <==> u.icon.Some?
    ensures forall f :: f in m ==> f == "id" || f == "nickName" || f == "icon"
  {
    var nick := if u.nickName.Some? then map["nickName" := u.nickName.value] else map[];
    var icon := if u.icon.Some? then map["icon" := u.icon.value] else map[];
    map["id" := LongText(u.id)] + nick + icon
  }

  /** The session's view of a user: what the hash can give back. */
  datatype UserDto = UserDto(id: int, nickName: Option<string>, icon: Option<string>)

  function Field(m: map<string, string>, f: string): Option<string>
  {
    if f in m then Some(m[f]) else None
  }

  /** Filling a UserDTO from the hash: the id parsed as a long, the text fields as they are. */
  function ReadUserMap(m: map<string, string>): Option<UserDto>
  {
    if "id" !in m then None
    else match ParseLong(m["id"])
      case None => None
      case Some(id) => Some(UserDto(id, Field(m, "nickName"), Field(m, "icon")))
  }

  /** The hash a login stores reads back as the user's DTO. */
  lemma UserMapRoundTrip(u: User)
    requires LONG_MIN <= u.id <= LONG_MAX
    ensures ReadUserMap(UserMap(u)) == Some(UserDto(u.id, u.nickName, u.icon))
  {
    ParseLongText(u.id);
  }

  // ---------------------------------------------------------------------
  // sedCode

  function CodeKey(consts: RedisConstants, phone: string): string
  {
    consts.loginCodeKey + phone
  }

  /** sedCode(phone) with the generated code `code`. */
  function SendCodeStep(kv: Keyspace, consts: RedisConstants, isPhoneInvalid: string -> bool,
                        phone: string, code: string): (c: Cmd<Response<()>>)
    ensures isPhoneInvalid(phone) ==> c == Cmd(Ok(Fail("手机格式错误")), kv)
    ensures !isPhoneInvalid(phone) && consts.loginCodeTtl > 0 ==>
              && c.reply == Ok(Success(()))
              && c.after == kv[CodeKey(consts, phone) := Entry(Str(code), ExpiresIn(consts.loginCodeTtl * 60))]
    ensures !isPhoneInvalid(phone) && consts.loginCodeTtl <= 0 ==> c == Cmd(Err(InvalidExpire), kv)
  {
    if isPhoneInvalid(phone) then Cmd(Ok(Fail("手机格式错误")), kv)
    else
      var written := SetCmd(kv, CodeKey(consts, phone), Str(code), Expiring(consts.loginCodeTtl, Minutes));
      if written.reply.Err? then Cmd(Err(written.reply.fault), kv)
      else Cmd(Ok(Success(())), written.after)
  }

  // ---------------------------------------------------------------------
  // login

  /** The cached code equals the submitted one (a null submission never does). */
  predicate CodeMatches(kv: Keyspace, key: string, code: Option<string>)
  {
    key in kv && kv[key].value.Str? && code == Some(kv[key].value.s)
  }

  function TokenKey(consts: RedisConstants, token: string): string
  {
    consts.loginUserKey + token
  }

  /** What login replies (or throws), the user table and the store afterwards. */
  datatype LoginReply = LoginReply(reply: Result<Response<string>>, users: Users, after: Keyspace)

  /**
    login(phone, code) with the random nickname suffix `suffix` and the random
    token `token`.
  */
  function LoginStep(kv: Keyspace, users: Users, consts: RedisConstants, prefix: string,
                     isPhoneInvalid: string -> bool, phone: string, code: Option<string>,
                     suffix: string, token: string): (q: LoginReply)
    ensures isPhoneInvalid(phone) ==> q == LoginReply(Ok(Fail("手机格式错误")), users, kv)
    ensures !isPhoneInvalid(phone) && !CodeMatches(kv, CodeKey(consts, phone), code)
              && Get(kv, CodeKey(consts, phone)) != WrongTypeRead ==>
              q == LoginReply(Ok(Fail("验证码错误")), users, kv)
    ensures q.users == users || q.users == NewUser(users, phone, prefix + suffix).table
    ensures q.users != users ==>
              && !isPhoneInvalid(phone) && CodeMatches(kv, CodeKey(consts, phone), code)
              && One(users.rows, phone) == Ok(None)
    ensures ValidUsers(users) ==> ValidUsers(q.users)
    ensures q.reply.Ok? && q.reply.value.Success? ==> q.reply.value.data == token
    ensures AgreeOutside(kv, q.after, {TokenKey(consts, token)})
  {
    if isPhoneInvalid(phone) then LoginReply(Ok(Fail("手机格式错误")), users, kv)
    else
      var cacheCode := Get(kv, CodeKey(consts, phone));
      if cacheCode.WrongTypeRead? then LoginReply(Err(WrongType), users, kv)
      else if !CodeMatches(kv, CodeKey(consts, phone), code) then LoginReply(Ok(Fail("验证码错误")), users, kv)
      else
        match AccountFor(users, phone, prefix, suffix)
        case Err(f) => LoginReply(Err(f), users, kv)
        case Ok(account) =>
          var tokenKey := TokenKey(consts, token);
          var put := HashPutAllCmd(kv, tokenKey, UserMap(account.user));
          if put.reply.Err? then LoginReply(Err(put.reply.fault), account.table, kv)
          else
            var expire := ExpireCmd(put.after, tokenKey, ToSeconds(consts.loginUserTtl, Minutes));
            LoginReply(Ok(Success(token)), account.table, expire.after)
  }

  /**
    A successful login leaves a session hash under the token, holding the
    fields of the user with that phone, alive for LOGIN_USER_TTL minutes.
  */
  lemma LoginOpensSession(kv: Keyspace, users: Users, consts: RedisConstants, prefix: string,
                          isPhoneInvalid: string -> bool, phone: string, code: Option<string>,
                          suffix: string, token: string)
    requires consts.loginUserTtl > 0
    requires LoginStep(kv, users, consts, prefix, isPhoneInvalid, phone, code, suffix, token).reply.Ok?
    requires LoginStep(kv, users, consts, prefix, isPhoneInvalid, phone, code, suffix, token).reply.value.Success?
    ensures var q := LoginStep(kv, users, consts, prefix, isPhoneInvalid, phone, code, suffix, token);
      var account := AccountFor(users, phone, prefix, suffix);
      var key := TokenKey(consts, token);
      && !isPhoneInvalid(phone) && CodeMatches(kv, CodeKey(consts, phone), code)
      && account.Ok? && account.value.user.phone == phone && account.value.user in q.users.rows
      && key in q.after && q.after[key].value.Hash?
      && q.after[key].ttl == ExpiresIn(consts.loginUserTtl * 60)
      && (forall f :: f in UserMap(account.value.user) ==>
            f in q.after[key].value.fields && q.after[key].value.fields[f] == UserMap(account.value.user)[f])
  {
  }

  /** A code just sent is accepted by the next login with that phone. */
  lemma SendCodeThenLogin(kv: Keyspace, users: Users, consts: RedisConstants, prefix: string,
                          isPhoneInvalid: string -> bool, phone: string, code: string,
                          suffix: string, token: string)
    requires !isPhoneInvalid(phone) && consts.loginCodeTtl > 0
    requires One(users.rows, phone).Ok?
    ensures var sent := SendCodeStep(kv, consts, isPhoneInvalid, phone, code);
      var tokenKey := TokenKey(consts, token);
      var q := LoginStep(sent.after, users, consts, prefix, isPhoneInvalid, phone, Some(code), suffix, token);
      && sent.reply == Ok(Success(()))
      && ((tokenKey !in sent.after || sent.after[tokenKey].value.Hash?) ==> q.reply == Ok(Success(token)))
  {
  }

  /**
    The code is not deleted by a login, so it logs the same phone in again;
    the second login finds the user the first one used and creates none.
  */
  lemma LoginAgainCreatesNoUser(kv: Keyspace, users: Users, consts: RedisConstants, prefix: string,
                                isPhoneInvalid: string -> bool, phone: string, code: Option<string>,
                                suffix: string, token: string, suffix2: string, token2: string)
    requires TokenKey(consts, token) != CodeKey(consts, phone)
    requires LoginStep(kv, users, consts, prefix, isPhoneInvalid, phone, code, suffix, token).reply.Ok?
    requires LoginStep(kv, users, consts, prefix, isPhoneInvalid, phone, code, suffix, token).reply.value.Success?
    ensures var first := LoginStep(kv, users, consts, prefix, isPhoneInvalid, phone, code, suffix, token);
      var second := LoginStep(first.after, first.users, consts, prefix, isPhoneInvalid, phone, code, suffix2, token2);
      && second.users == first.users
      && second.reply != Ok(Fail("验证码错误"))
  {
    var first := LoginStep(kv, users, consts, prefix, isPhoneInvalid, phone, code, suffix, token);
    var key := CodeKey(consts, phone);
    assert key in first.after && first.after[key] == kv[key];
    AccountIsFound(users, phone, prefix, suffix);
    assert first.users == AccountFor(users, phone, prefix, suffix).value.table;
    LoginKnownUser(first.after, first.users, consts, prefix, isPhoneInvalid, phone, code, suffix2, token2);
  }

  /** A login whose code matches, for a phone that already has its row, adds no row and is not refused. */
  lemma LoginKnownUser(kv: Keyspace, users: Users, consts: RedisConstants, prefix: string,
                       isPhoneInvalid: string -> bool, phone: string, code: Option<string>,
                       suffix: string, token: string)
    requires !isPhoneInvalid(phone) && CodeMatches(kv, CodeKey(consts, phone), code)
    requires One(users.rows, phone).Ok? && One(users.rows, phone).value.Some?
    ensures var q := LoginStep(kv, users, consts, prefix, isPhoneInvalid, phone, code, suffix, token);
      q.users == users && q.reply != Ok(Fail("验证码错误"))
  {
  }

  /** After the account is settled, the phone matches exactly one row of the table. */
  lemma AccountIsFound(t: Users, phone: string, prefix: string, suffix: string)
    requires AccountFor(t, phone, prefix, suffix).Ok?
    ensures var table := AccountFor(t, phone, prefix, suffix).value.table;
      One(table.rows, phone).Ok? && One(table.rows, phone).value.Some?
  {
    var account := AccountFor(t, phone, prefix, suffix).value;
    if account.table != t {
      assert WithPhone(t.rows, phone) == [];
      var rows := account.table.rows;
      assert rows[..|rows| - 1] == t.rows;
      assert WithPhone(rows, phone) == [account.user];
    } else {
      assert One(t.rows, phone).Ok?;
    }
  }

  // ---------------------------------------------------------------------
  // sign

  /** The month formatted with the pattern ":yyyyMM". */
  function MonthStamp(now: DateTime): (s: string)
    requires ValidDateTime(now)
    ensures |s| == 7
  {
    ":" + Pad(now.year, 4) + Pad(now.month, 2)
  }

  /** "sign:" + userId + the month stamp. */
  function SignKey(userId: int, now: DateTime): (key: string)
    requires ValidDateTime(now)
  {
    "sign:" + LongText(userId) + MonthStamp(now)
  }

  /** The bit of the day: dayOfMonth - 1. */
  function SignOffset(now: DateTime): (offset: nat)
    requires ValidDateTime(now)
    ensures offset < 31 && offset + 1 == now.day
  {
    now.day - 1
  }

  /** sign() for the current user `userId` at clock reading `now`. */
  function SignStep(kv: Keyspace, userId: int, now: DateTime): (c: Cmd<Response<()>>)
    requires ValidDateTime(now)
    ensures c.reply.Ok? ==> c.reply.value == Success(())
    ensures c.reply.Ok? ==> && SignKey(userId, now) in c.after
                            && c.after[SignKey(userId, now)].value.Bitmap?
                            && SignOffset(now) in c.after[SignKey(userId, now)].value.ones
    ensures c.reply.Err? ==> c.after == kv
    ensures AgreeOutside(kv, c.after, {SignKey(userId, now)})
  {
    var written := SetBitCmd(kv, SignKey(userId, now), SignOffset(now));
    if written.reply.Err? then Cmd(Err(written.reply.fault), kv)
    else Cmd(Ok(Success(())), written.after)
  }

  /** Two strings that end in equally long parts agree on both parts. */
  lemma SplitEqual(p1: string, s1: string, p2: string, s2: string)
    requires |s1| == |s2| && p1 + s1 == p2 + s2
    ensures p1 == p2 && s1 == s2
  {
    assert p1 == (p1 + s1)[..|p1|];
    assert s1 == (p1 + s1)[|p1|..];
  }

  lemma MonthStampInjective(a: DateTime, b: DateTime)
    requires ValidDateTime(a) && ValidDateTime(b)
    ensures MonthStamp(a) == MonthStamp(b) <==> a.year == b.year && a.month == b.month
  {
    var sa, sb := MonthStamp(a), MonthStamp(b);
    if sa == sb {
      assert sa[1..5] == Pad(a.year, 4) && sb[1..5] == Pad(b.year, 4);
      assert sa[5..] == Pad(a.month, 2) && sb[5..] == Pad(b.month, 2);
      PadInjective(a.year, b.year, 4);
      PadInjective(a.month, b.month, 2);
    }
  }

  /** Each user and calendar month has a bitmap of its own. */
  lemma SignKeyInjective(u1: int, a: DateTime, u2: int, b: DateTime)
    requires ValidDateTime(a) && ValidDateTime(b)
    ensures SignKey(u1, a) == SignKey(u2, b) <==> u1 == u2 && a.year == b.year && a.month == b.month
  {
    MonthStampInjective(a, b);
    if SignKey(u1, a) == SignKey(u2, b) {
      var p1, p2 := "sign:" + LongText(u1), "sign:" + LongText(u2);
      SplitEqual(p1, MonthStamp(a), p2, MonthStamp(b));
      assert LongText(u1) == p1[5..] && LongText(u2) == p2[5..];
      LongTextInjective(u1, u2);
    }
  }

  /** Signing twice on one day leaves the store as the first sign left it. */
  lemma SignIdempotent(kv: Keyspace, userId: int, now: DateTime)
    requires ValidDateTime(now)
    requires SignStep(kv, userId, now).reply.Ok?
    ensures var first := SignStep(kv, userId, now);
      SignStep(first.after, userId, now) == first
  {
    var first := SignStep(kv, userId, now);
    var key := SignKey(userId, now);
    var ones := first.after[key].value.ones;
    assert ones + {SignOffset(now)} == ones;
  }

  /** Signing on two days of one month leaves both days' bits set in the month's bitmap. */
  lemma SignAccumulates(kv: Keyspace, userId: int, a: DateTime, b: DateTime)
    requires ValidDateTime(a) && ValidDateTime(b) && a.year == b.year && a.month == b.month
    requires SignStep(kv, userId, a).reply.Ok?
    ensures var first := SignStep(kv, userId, a);
      var second := SignStep(first.after, userId, b);
      var key := SignKey(userId, a);
      && second.reply.Ok?
      && key in second.after && second.after[key].value.Bitmap?
      && second.after[key].value.ones == first.after[key].value.ones + {b.day - 1}
      && a.day - 1 in second.after[key].value.ones
  {
    assert SignKey(userId, a) == SignKey(userId, b);
  }

  // ---------------------------------------------------------------------
  // The service

  /** The user service: the user table, the shared store template and the constants it reads. */
  class UserServiceImpl {
    var users: Users
    const template: Template
    const consts: RedisConstants
    const sys: SystemConstants
    const isPhoneInvalid: string -> bool

    constructor (users: Users, template: Template, consts: RedisConstants, sys: SystemConstants,
                 isPhoneInvalid: string -> bool)
      ensures this.users == users && this.template == template && this.consts == consts
      ensures this.sys == sys && this.isPhoneInvalid == isPhoneInvalid
    {
      this.users := users;
      this.template := template;
      this.consts := consts;
      this.sys := sys;
      this.isPhoneInvalid := isPhoneInvalid;
    }

    /** sedCode(phone), where `code` is what RandomUtil.randomNumbers(6) drew. */
    method SedCode(phone: string, code: string) returns (r: Result<Response<()>>)
      modifies template
      ensures Cmd(r, template.kv) == SendCodeStep(old(template.kv), consts, isPhoneInvalid, phone, code)
    {
      if isPhoneInvalid(phone) {
        return Ok(Fail("手机格式错误"));
      }
      var written := template.Set(CodeKey(consts, phone), Str(code), Expiring(consts.loginCodeTtl, Minutes));
      if written.Err? {
        return Err(written.fault);
      }
      r := Ok(Success(()));
    }

    /** login(phone, code); `suffix` and `token` stand for the random nickname suffix and the UUID. */
    method Login(phone: string, code: Option<string>, suffix: string, token: string)
      returns (r: Result<Response<string>>)
      modifies this, template
      ensures LoginReply(r, users, template.kv)
        == LoginStep(old(template.kv), old(users), consts, sys.userNickNamePrefix, isPhoneInvalid,
                     phone, code, suffix, token)
    {
      if isPhoneInvalid(phone) {
        return Ok(Fail("手机格式错误"));
      }
      var cacheCode := template.Read(CodeKey(consts, phone));
      if cacheCode.WrongTypeRead? {
        return Err(WrongType);
      }
      if !(cacheCode.Found? && cacheCode.value.Str? && code == Some(cacheCode.value.s)) {
        return Ok(Fail("验证码错误"));
      }
      var user := One(users.rows, phone);
      if user.Err? {
        return Err(user.fault);
      }
      var found := user.value;
      if found.None? {
        var created := CreateUserWithPhone(phone, suffix);
        found := Some(created);
      }
      var tokenKey := TokenKey(consts, token);
      var put := template.HashPutAll(tokenKey, UserMap(found.value));
      if put.Err? {
        return Err(put.fault);
      }
      var _ := template.Expire(tokenKey, ToSeconds(consts.loginUserTtl, Minutes));
      r := Ok(Success(token));
    }

    /** createUserWithPhone(phone): save a user named by the prefix and `suffix`. */
    method CreateUserWithPhone(phone: string, suffix: string) returns (user: User)
      modifies this
      ensures Account(user, users) == NewUser(old(users), phone, sys.userNickNamePrefix + suffix)
    {
      user := User(users.nextId, phone, Some(sys.userNickNamePrefix + suffix), None);
      users := Users(users.rows + [user], users.nextId + 1);
    }

    /** sign() for the current user `userId` at clock reading `now`. */
    method Sign(userId: int, now: DateTime) returns (r: Result<Response<()>>)
      requires ValidDateTime(now)
      modifies template
      ensures Cmd(r, template.kv) == SignStep(old(template.kv), userId, now)
    {
      var written := template.SetBit(SignKey(userId, now), SignOffset(now));
      if written.Err? {
        return Err(written.fault);
      }
      r := Ok(Success(()));
    }
  }
}
