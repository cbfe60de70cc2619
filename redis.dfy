/**
  The key/value store behind StringRedisTemplate: a map from keys to values
  with an optional time-to-live. Each command is a function from the keyspace
  to a reply and the keyspace after it; the Template class applies them in
  place, as the services' calls on the shared template bean do.
*/
module Redis {
  import opened Wrappers
  import opened Strings
  import opened Json

  datatype TimeUnit = Seconds | Minutes | Hours | Days

  /** TimeUnit.toSeconds (its saturation at the 64-bit limits is not modelled). */
  function ToSeconds(amount: int, unit: TimeUnit): int
  {
    match unit
    case Seconds => amount
    case Minutes => amount * 60
    case Hours => amount * 3600
    case Days => amount * 86400
  }

  /** A key either lives until deleted or expires the given number of seconds after it was set. */
  datatype Ttl = Persistent | ExpiresIn(seconds: int)

  /** The store refuses SET ... EX with a non-positive expire time. */
  predicate ValidTtl(t: Ttl) { t.ExpiresIn? ==> t.seconds > 0 }

  function Expiring(amount: int, unit: TimeUnit): Ttl
  {
    ExpiresIn(ToSeconds(amount, unit))
  }

  datatype Value =
    | Str(s: string)                     // plain string text
    | Doc(json: Json)                    // string text written by JSONUtil.toJsonStr
    | Bitmap(ones: set<nat>)             // a string used through SETBIT: the offsets of its 1 bits
    | Hash(fields: map<string, string>)  // a hash
    | Members(elems: set<string>)        // a set

  datatype Entry = Entry(value: Value, ttl: Ttl)

  type Keyspace = map<string, Entry>

  /** The keyspaces agree on every key outside `keys`. */
  ghost predicate AgreeOutside(a: Keyspace, b: Keyspace, keys: set<string>)
  {
    forall k :: k !in keys ==> (k in a <==> k in b) && (k in a ==> a[k] == b[k])
  }

  /** What a command replies and what the keyspace is afterwards. */
  datatype Cmd<T> = Cmd(reply: Result<T>, after: Keyspace)

  /** The reply to GET: nil, a string value, or WRONGTYPE for hashes and sets. */
  datatype Read = Missing | Found(value: Value) | WrongTypeRead

  function Get(kv: Keyspace, key: string): (r: Read)
    ensures r.Missing? <==> key !in kv
    ensures r.Found? ==> kv[key].value == r.value && !r.value.Hash? && !r.value.Members?
  {
    if key !in kv then Missing
    else if kv[key].value.Hash? || kv[key].value.Members? then WrongTypeRead
    else Found(kv[key].value)
  }

  /** StrUtil.isBlank on the text of a stored string (JSON text and bitmaps are never blank). */
  predicate IsBlankValue(v: Value)
  {
    v.Str? && IsBlank(v.s)
  }

  /** BooleanUtil.isTrue: a null reply counts as false. */
  function IsTrue(b: Option<bool>): (r: bool)
    ensures r <==> b == Some(true)
  {
    match b
    case Some(x) => x
    case None => false
  }

  /** SET key value [EX seconds]. */
  function SetCmd(kv: Keyspace, key: string, v: Value, ttl: Ttl): (c: Cmd<()>)
    ensures c.reply.Ok? <==> ValidTtl(ttl)
    ensures c.reply.Ok? ==> key in c.after && c.after[key] == Entry(v, ttl)
    ensures c.reply.Err? ==> c.reply.fault == InvalidExpire && c.after == kv
    ensures AgreeOutside(kv, c.after, {key})
  {
    if ValidTtl(ttl) then Cmd(Ok(()), kv[key := Entry(v, ttl)]) else Cmd(Err(InvalidExpire), kv)
  }

  /** SET key value EX seconds NX: the reply says whether the key was set. */
  function SetIfAbsentCmd(kv: Keyspace, key: string, v: Value, ttl: Ttl): (c: Cmd<Option<bool>>)
    ensures c.reply.Ok? <==> ValidTtl(ttl)
    ensures c.reply.Ok? ==> c.reply.value == Some(key !in kv)
    ensures c.reply == Ok(Some(true)) ==> c.after == kv[key := Entry(v, ttl)]
    ensures c.reply != Ok(Some(true)) ==> c.after == kv
  {
    if !ValidTtl(ttl) then Cmd(Err(InvalidExpire), kv)
    else if key in kv then Cmd(Ok(Some(false)), kv)
    else Cmd(Ok(Some(true)), kv[key := Entry(v, ttl)])
  }

  /** DEL key: the reply says whether a key was removed. */
  function DeleteCmd(kv: Keyspace, key: string): (c: Cmd<bool>)
    ensures c.reply == Ok(key in kv)
    ensures key !in c.after && AgreeOutside(kv, c.after, {key})
  {
    Cmd(Ok(key in kv), kv - {key})
  }

  /**
    INCR key: a missing key counts from 0; the value must be the canonical text
    of a 64-bit integer and must not pass the largest one. The TTL is kept.
  */
  function IncrCmd(kv: Keyspace, key: string): (c: Cmd<int>)
    ensures key !in kv ==> c.reply == Ok(1) && key in c.after && c.after[key] == Entry(Str(LongText(1)), Persistent)
    ensures key in kv && c.reply.Ok? ==>
              && kv[key].value.Str? && ParseLong(kv[key].value.s) == Some(c.reply.value - 1)
              && key in c.after && c.after[key].ttl == kv[key].ttl
    ensures (&& key in kv && kv[key].value.Str? && ParseLong(kv[key].value.s).Some?
             && LongText(ParseLong(kv[key].value.s).value) == kv[key].value.s
             && ParseLong(kv[key].value.s).value < LONG_MAX) ==> c.reply.Ok?
    ensures c.reply.Ok? ==> key in c.after && c.after[key].value == Str(LongText(c.reply.value))
    ensures c.reply.Ok? ==> c.reply.value <= LONG_MAX
    ensures c.reply.Err? ==> c.after == kv
    ensures AgreeOutside(kv, c.after, {key})
  {
    if key !in kv then Cmd(Ok(1), kv[key := Entry(Str(LongText(1)), Persistent)])
    else
      var e := kv[key];
      match e.value
      case Str(s) =>
        var n := ParseLong(s);
        if n.None? || LongText(n.value) != s then Cmd(Err(NotAnInteger), kv)
        else if n.value == LONG_MAX then Cmd(Err(IncrOverflow), kv)
        else Cmd(Ok(n.value + 1), kv[key := Entry(Str(LongText(n.value + 1)), e.ttl)])
      case Hash(_) => Cmd(Err(WrongType), kv)
      case Members(_) => Cmd(Err(WrongType), kv)
      case _ => Cmd(Err(NotAnInteger), kv)
  }

  /** SETBIT key offset 1: the reply is the previous bit. The TTL is kept. */
  function SetBitCmd(kv: Keyspace, key: string, offset: nat): (c: Cmd<bool>)
    ensures c.reply.Ok? <==> key !in kv || kv[key].value.Bitmap?
    ensures key !in kv ==> c.reply == Ok(false) && key in c.after && c.after[key] == Entry(Bitmap({offset}), Persistent)
    ensures key in kv && kv[key].value.Bitmap? ==>
              && c.reply == Ok(offset in kv[key].value.ones)
              && key in c.after && c.after[key] == Entry(Bitmap(kv[key].value.ones + {offset}), kv[key].ttl)
    ensures c.reply.Err? ==> c.after == kv
    ensures AgreeOutside(kv, c.after, {key})
  {
    if key !in kv then Cmd(Ok(false), kv[key := Entry(Bitmap({offset}), Persistent)])
    else
      var e := kv[key];
      match e.value
      case Bitmap(ones) => Cmd(Ok(offset in ones), kv[key := Entry(Bitmap(ones + {offset}), e.ttl)])
      case Hash(_) => Cmd(Err(WrongType), kv)
      case Members(_) => Cmd(Err(WrongType), kv)
      case _ => Cmd(Err(Unmodelled), kv)
  }

  /** The members of a set key; a missing key is the empty set. */
  function MembersOf(kv: Keyspace, key: string): Result<set<string>>
  {
    if key !in kv then Ok({})
    else if kv[key].value.Members? then Ok(kv[key].value.elems)
    else Err(WrongType)
  }

  /** SADD key member. */
  function SetAddCmd(kv: Keyspace, key: string, member: string): (c: Cmd<bool>)
    ensures c.reply.Ok? <==> MembersOf(kv, key).Ok?
    ensures c.reply.Ok? ==> MembersOf(c.after, key) == Ok(MembersOf(kv, key).value + {member})
    ensures c.reply.Err? ==> c.after == kv
    ensures AgreeOutside(kv, c.after, {key})
  {
    match MembersOf(kv, key)
    case Err(f) => Cmd(Err(f), kv)
    case Ok(elems) =>
      var ttl := if key in kv then kv[key].ttl else Persistent;
      Cmd(Ok(member !in elems), kv[key := Entry(Members(elems + {member}), ttl)])
  }

  /** SREM key member: a set left empty is deleted, as the store does. */
  function SetRemoveCmd(kv: Keyspace, key: string, member: string): (c: Cmd<bool>)
    ensures c.reply.Ok? <==> MembersOf(kv, key).Ok?
    ensures c.reply.Ok? ==> MembersOf(c.after, key) == Ok(MembersOf(kv, key).value - {member})
    ensures c.reply.Err? ==> c.after == kv
    ensures AgreeOutside(kv, c.after, {key})
  {
    match MembersOf(kv, key)
    case Err(f) => Cmd(Err(f), kv)
    case Ok(elems) =>
      if member !in elems then assert elems - {member} == elems; Cmd(Ok(false), kv)
      else if elems == {member} then assert elems - {member} == {}; Cmd(Ok(true), kv - {key})
      else Cmd(Ok(true), kv[key := Entry(Members(elems - {member}), kv[key].ttl)])
  }

  /** SINTER key1 key2. */
  function Intersect(kv: Keyspace, key1: string, key2: string): (r: Result<set<string>>)
    ensures r.Ok? <==> MembersOf(kv, key1).Ok? && MembersOf(kv, key2).Ok?
    ensures r.Ok? ==> forall m :: m in r.value <==> m in MembersOf(kv, key1).value && m in MembersOf(kv, key2).value
  {
    match (MembersOf(kv, key1), MembersOf(kv, key2))
    case (Ok(a), Ok(b)) => Ok(a * b)
    case (Err(f), _) => Err(f)
    case (_, Err(f)) => Err(f)
  }

  /** HSET key field value ... (putAll): the fields are merged into the hash. */
  function HashPutAllCmd(kv: Keyspace, key: string, fields: map<string, string>): (c: Cmd<()>)
    ensures c.reply.Ok? <==> key !in kv || kv[key].value.Hash?
    ensures c.reply.Ok? ==> key in c.after && c.after[key].value.Hash?
    ensures c.reply.Ok? ==> forall f :: f in fields ==> f in c.after[key].value.fields && c.after[key].value.fields[f] == fields[f]
    ensures key !in kv ==> key in c.after && c.after[key] == Entry(Hash(fields), Persistent)
    ensures key in kv && c.reply.Ok? ==>
              && key in c.after && c.after[key].value.Hash? && c.after[key].ttl == kv[key].ttl
              && (forall f :: f in c.after[key].value.fields <==> f in fields || f in kv[key].value.fields)
              && (forall f :: f in kv[key].value.fields && f !in fields ==>
                    c.after[key].value.fields[f] == kv[key].value.fields[f])
    ensures c.reply.Err? ==> c.after == kv
    ensures AgreeOutside(kv, c.after, {key})
  {
    if key !in kv then Cmd(Ok(()), kv[key := Entry(Hash(fields), Persistent)])
    else if kv[key].value.Hash? then
      Cmd(Ok(()), kv[key := Entry(Hash(kv[key].value.fields + fields), kv[key].ttl)])
    else Cmd(Err(WrongType), kv)
  }

  /** EXPIRE key seconds: a non-positive time deletes the key, as the store does. */
  function ExpireCmd(kv: Keyspace, key: string, seconds: int): (c: Cmd<bool>)
    ensures c.reply == Ok(key in kv)
    ensures key in kv && seconds > 0 ==> key in c.after && c.after[key] == Entry(kv[key].value, ExpiresIn(seconds))
    ensures seconds <= 0 || key !in kv ==> key !in c.after
    ensures AgreeOutside(kv, c.after, {key})
  {
    if key !in kv then Cmd(Ok(false), kv)
    else if seconds <= 0 then Cmd(Ok(true), kv - {key})
    else Cmd(Ok(true), kv[key := Entry(kv[key].value, ExpiresIn(seconds))])
  }

  /** The StringRedisTemplate bean shared by every service: the store's keyspace, changed in place. */
  class Template {
    var kv: Keyspace

    constructor ()
      ensures kv == map[]
    {
      kv := map[];
    }

    method Read(key: string) returns (r: Read)
      ensures r == Get(kv, key)
    {
      r := Get(kv, key);
    }

    method Set(key: string, v: Value, ttl: Ttl) returns (r: Result<()>)
      modifies this
      ensures Cmd(r, kv) == SetCmd(old(kv), key, v, ttl)
    {
      var c := SetCmd(kv, key, v, ttl);
      r, kv := c.reply, c.after;
    }

    method SetIfAbsent(key: string, v: Value, ttl: Ttl) returns (r: Result<Option<bool>>)
      modifies this
      ensures Cmd(r, kv) == SetIfAbsentCmd(old(kv), key, v, ttl)
    {
      var c := SetIfAbsentCmd(kv, key, v, ttl);
      r, kv := c.reply, c.after;
    }

    method Delete(key: string) returns (removed: bool)
      modifies this
      ensures Cmd(Ok(removed), kv) == DeleteCmd(old(kv), key)
    {
      removed := key in kv;
      kv := kv - {key};
    }

    method Increment(key: string) returns (r: Result<int>)
      modifies this
      ensures Cmd(r, kv) == IncrCmd(old(kv), key)
    {
      var c := IncrCmd(kv, key);
      r, kv := c.reply, c.after;
    }

    method SetBit(key: string, offset: nat) returns (r: Result<bool>)
      modifies this
      ensures Cmd(r, kv) == SetBitCmd(old(kv), key, offset)
    {
      var c := SetBitCmd(kv, key, offset);
      r, kv := c.reply, c.after;
    }

    method SetAdd(key: string, member: string) returns (r: Result<bool>)
      modifies this
      ensures Cmd(r, kv) == SetAddCmd(old(kv), key, member)
    {
      var c := SetAddCmd(kv, key, member);
      r, kv := c.reply, c.after;
    }

    method SetRemove(key: string, member: string) returns (r: Result<bool>)
      modifies this
      ensures Cmd(r, kv) == SetRemoveCmd(old(kv), key, member)
    {
      var c := SetRemoveCmd(kv, key, member);
      r, kv := c.reply, c.after;
    }

    method SetIntersect(key1: string, key2: string) returns (r: Result<set<string>>)
      ensures r == Intersect(kv, key1, key2)
    {
      r := Intersect(kv, key1, key2);
    }

    method HashPutAll(key: string, fields: map<string, string>) returns (r: Result<()>)
      modifies this
      ensures Cmd(r, kv) == HashPutAllCmd(old(kv), key, fields)
    {
      var c := HashPutAllCmd(kv, key, fields);
      r, kv := c.reply, c.after;
    }

    method Expire(key: string, seconds: int) returns (r: bool)
      modifies this
      ensures Cmd(Ok(r), kv) == ExpireCmd(old(kv), key, seconds)
    {
      var c := ExpireCmd(kv, key, seconds);
      r, kv := key in kv, c.after;
    }
  }
}
