/**
  ShopServiceImpl: a shop read through the logical-expiry cache, an update
  that writes the row and then drops the cached entry, and the by-type
  listing that pages either the table or a geo search around a point.
*/
module ShopService {
  import opened Wrappers
  import opened Strings
  import opened Json
  import opened Redis
  import opened Dto
  import opened CacheClient

  /** A Double the model carries but never computes with: a coordinate or a distance. */
  datatype Real = Real(token: int)

  /**
    A tb_shop row: the primary key, some of its columns, and the distance,
    which is not a column and is only filled in by the geo listing.
  */
  datatype Shop = Shop(id: Option<int>, name: Option<string>, typeId: Option<int>,
                       address: Option<string>, distance: Option<Real>)

  // ---------------------------------------------------------------------
  // The JSON form of a shop

  /** JSONUtil.toJsonStr of a shop: an object with one member per non-null field. */
  function EncodeShop(s: Shop): (j: Json)
    ensures j.JObj?
    ensures "id" in j.fields <==> s.id.Some?
  {
    var distance := match s.distance case None => None case Some(d) => Some(d.token);
    var withId := PutInt(map[], "id", s.id);
    assert |"id"| == 2 && |"name"| == 4 && |"typeId"| == 6 && |"address"| == 7 && |"distance"| == 8;
    JObj(PutInt(PutText(PutInt(PutText(withId, "name", s.name), "typeId", s.typeId), "address", s.address),
                "distance", distance))
  }

  /** JSONUtil.toBean(json, Shop.class). */
  function DecodeShop(j: Json): (r: Option<Shop>)
    ensures r.Some? ==> j.JObj?
  {
    match j
    case JObj(f) =>
      var id := ReadInt(f, "id");
      var name := ReadText(f, "name");
      var typeId := ReadInt(f, "typeId");
      var address := ReadText(f, "address");
      var distance := ReadInt(f, "distance");
      if id.None? || name.None? || typeId.None? || address.None? || distance.None? then None
      else
        var d := match distance.value case None => None case Some(t) => Some(Real(t));
        Some(Shop(id.value, name.value, typeId.value, address.value, d))
    case _ => None
  }

  function ShopCodec(): Codec<Shop> { Codec(EncodeShop, DecodeShop) }

  /** Each member of a shop's JSON object reads back as the field it was written from. */
  lemma ShopMembersRead(s: Shop)
    ensures var f := EncodeShop(s).fields;
      && ReadInt(f, "id") == Some(s.id)
      && ReadText(f, "name") == Some(s.name)
      && ReadInt(f, "typeId") == Some(s.typeId)
      && ReadText(f, "address") == Some(s.address)
      && ReadInt(f, "distance") == Some(match s.distance case None => None case Some(d) => Some(d.token))
  {
    var distance := match s.distance case None => None case Some(d) => Some(d.token);
    assert |"id"| == 2 && |"name"| == 4 && |"typeId"| == 6 && |"address"| == 7 && |"distance"| == 8;
    var m0: map<string, Json> := map[];
    var m1 := PutInt(m0, "id", s.id);
    var m2 := PutText(m1, "name", s.name);
    var m3 := PutInt(m2, "typeId", s.typeId);
    var m4 := PutText(m3, "address", s.address);
    var m5 := PutInt(m4, "distance", distance);
    assert m5 == EncodeShop(s).fields;
    ReadPut(m0, "id", s.id, None);
    PutKeeps(m0, "id", s.id, None, "name");
    PutKeeps(m0, "id", s.id, None, "typeId");
    PutKeeps(m0, "id", s.id, None, "address");
    PutKeeps(m0, "id", s.id, None, "distance");
    ReadPut(m1, "name", None, s.name);
    PutKeeps(m1, "name", None, s.name, "id");
    PutKeeps(m1, "name", None, s.name, "typeId");
    PutKeeps(m1, "name", None, s.name, "address");
    PutKeeps(m1, "name", None, s.name, "distance");
    ReadPut(m2, "typeId", s.typeId, None);
    PutKeeps(m2, "typeId", s.typeId, None, "id");
    PutKeeps(m2, "typeId", s.typeId, None, "name");
    PutKeeps(m2, "typeId", s.typeId, None, "address");
    PutKeeps(m2, "typeId", s.typeId, None, "distance");
    ReadPut(m3, "address", None, s.address);
    PutKeeps(m3, "address", None, s.address, "id");
    PutKeeps(m3, "address", None, s.address, "name");
    PutKeeps(m3, "address", None, s.address, "typeId");
    PutKeeps(m3, "address", None, s.address, "distance");
    ReadPut(m4, "distance", distance, None);
    PutKeeps(m4, "distance", distance, None, "id");
    PutKeeps(m4, "distance", distance, None, "name");
    PutKeeps(m4, "distance", distance, None, "typeId");
    PutKeeps(m4, "distance", distance, None, "address");
  }

  lemma ShopRoundTrip(s: Shop)
    ensures DecodeShop(EncodeShop(s)) == Some(s)
  {
    ShopMembersRead(s);
  }

  /** Shops survive the trip through the cache unchanged. */
  lemma ShopCodecRoundTrip()
    ensures BeanCodec(ShopCodec())
  {
    forall s: Shop
      ensures ShopCodec().encode(s).JObj? && ShopCodec().decode(ShopCodec().encode(s)) == Some(s)
    {
      ShopRoundTrip(s);
    }
  }

  // ---------------------------------------------------------------------
  // The shop table

  /** tb_shop: every row has an id and no two rows share one. */
  predicate ShopTable(rows: seq<Shop>)
  {
    && (forall i :: 0 <= i < |rows| ==> rows[i].id.Some?)
    && (forall i, j :: 0 <= i < j < |rows| ==> rows[i].id != rows[j].id)
  }

  /** getById: the row with that primary key, or null. */
  function FindRow(rows: seq<Shop>, id: int): (r: Option<Shop>)
    ensures r.Some? ==> r.value in rows && r.value.id == Some(id)
    ensures r.None? <==> forall i :: 0 <= i < |rows| ==> rows[i].id != Some(id)
  {
    if rows == [] then None
    else if rows[0].id == Some(id) then Some(rows[0])
    else
      var r := FindRow(rows[1..], id);
      assert forall i :: 1 <= i < |rows| ==> rows[i] == rows[1..][i - 1];
      r
  }

  /** The dbFallback this::getById, called with the id's text. */
  function ShopLoader(rows: seq<Shop>): string -> Fetch<Shop>
  {
    s => match ParseLong(s)
      case None => Row(None)
      case Some(n) => Row(FindRow(rows, n))
  }

  lemma ShopLoaderFinds(rows: seq<Shop>, id: int)
    requires IsLongId(id)
    ensures ShopLoader(rows)(LongText(id)) == Row(FindRow(rows, id))
  {
    ParseLongText(id);
  }

  predicate IsLongId(id: int) { LONG_MIN <= id <= LONG_MAX }

  function Pick<T>(patch: Option<T>, current: Option<T>): (r: Option<T>)
    ensures patch.Some? ==> r == patch
    ensures patch.None? ==> r == current
  {
    if patch.Some? then patch else current
  }

  /** updateById column by column: the non-null columns of the patch replace the row's. */
  function MergeColumns(row: Shop, patch: Shop): Shop
  {
    Shop(row.id, Pick(patch.name, row.name), Pick(patch.typeId, row.typeId), Pick(patch.address, row.address), row.distance)
  }

  /** updateById(patch): the row with the patch's id takes its non-null columns; no other row changes. */
  function UpdateById(rows: seq<Shop>, patch: Shop): (r: seq<Shop>)
    requires patch.id.Some?
    ensures |r| == |rows|
    ensures forall i :: 0 <= i < |rows| ==> r[i].id == rows[i].id
    ensures forall i :: 0 <= i < |rows| && rows[i].id != patch.id ==> r[i] == rows[i]
  {
    if rows == [] then []
    else
      var head := if rows[0].id == patch.id then MergeColumns(rows[0], patch) else rows[0];
      [head] + UpdateById(rows[1..], patch)
  }

  /** After updateById, getById of the patched id sees the merged row and every other id sees its old row. */
  lemma {:induction false} UpdateByIdThenFind(rows: seq<Shop>, patch: Shop, id: int)
    requires patch.id.Some?
    ensures ShopTable(rows) ==> ShopTable(UpdateById(rows, patch))
    ensures FindRow(UpdateById(rows, patch), id)
      == if Some(id) == patch.id && FindRow(rows, id).Some? then Some(MergeColumns(FindRow(rows, id).value, patch))
         else FindRow(rows, id)
  {
    if rows != [] {
      UpdateByIdThenFind(rows[1..], patch, id);
      var r := UpdateById(rows, patch);
      assert r[1..] == UpdateById(rows[1..], patch);
    }
  }

  // ---------------------------------------------------------------------
  // queryById and update

  /** What queryById replies (or throws) and the store afterwards. */
  datatype ShopReply = ShopReply(reply: Result<Response<Shop>>, after: Keyspace)

  /** queryById(id): the logical-expiry read of CACHE_SHOP_KEY + id, null turned into a failure. */
  function QueryByIdStep(kv: Keyspace, consts: RedisConstants, rows: seq<Shop>, id: int, now: int, rebuildNow: int)
    : (q: ShopReply)
    ensures var l := LogicalExpireStep(kv, consts, consts.cacheShopKey, LongText(id), ShopCodec(),
                                      consts.cacheShopTtl, Minutes, ShopLoader(rows), now, rebuildNow);
      && q.after == l.after
      && (q.reply == Ok(Fail("店铺不存在!")) <==> l.reply == Ok(None))
      && (q.reply.Ok? && q.reply.value.Success? <==> l.reply.Ok? && l.reply.value.Some?)
      && (q.reply.Ok? && q.reply.value.Success? ==> q.reply.value.data == l.reply.value.value)
      && (q.reply.Err? <==> l.reply.Err?)
    ensures consts.cacheShopKey + LongText(id) !in kv ==> q == ShopReply(Ok(Fail("店铺不存在!")), kv)
  {
    var l := LogicalExpireStep(kv, consts, consts.cacheShopKey, LongText(id), ShopCodec(),
                               consts.cacheShopTtl, Minutes, ShopLoader(rows), now, rebuildNow);
    match l.reply
    case Err(f) => ShopReply(Err(f), l.after)
    case Ok(None) => ShopReply(Ok(Fail("店铺不存在!")), l.after)
    case Ok(Some(shop)) => ShopReply(Ok(Success(shop)), l.after)
  }

  /** A shop cached with setWithLogicalExpire is served from the cache until its logical expiry. */
  lemma WarmedShopIsServed(kv: Keyspace, consts: RedisConstants, rows: seq<Shop>, shop: Shop, id: int,
                           time: int, unit: TimeUnit, setAt: int, now: int, rebuildNow: int)
    requires now < setAt + ToSeconds(time, unit)
    ensures var warmed := SetWithLogicalExpireStep(kv, ShopCodec(), consts.cacheShopKey + LongText(id), Some(shop),
                                                   time, unit, setAt);
      QueryByIdStep(warmed, consts, rows, id, now, rebuildNow) == ShopReply(Ok(Success(shop)), warmed)
  {
    ShopCodecRoundTrip();
    SetWithLogicalExpireThenRead(kv, consts, consts.cacheShopKey, LongText(id), ShopCodec(), shop, time, unit, setAt,
                                 ShopLoader(rows), consts.cacheShopTtl, Minutes, now, rebuildNow);
  }

  /** What update replies and the table and store afterwards. */
  datatype UpdateOutcome = UpdateOutcome(reply: Response<()>, rows: seq<Shop>, after: Keyspace)

  /** update(shop): a null id fails; otherwise write the row, then delete CACHE_SHOP_KEY + id. */
  function UpdateStep(rows: seq<Shop>, kv: Keyspace, consts: RedisConstants, shop: Shop): (u: UpdateOutcome)
    ensures shop.id.None? <==> u.reply.Fail?
    ensures shop.id.None? ==> u == UpdateOutcome(Fail("店铺id不能为空"), rows, kv)
    ensures shop.id.Some? ==>
              && consts.cacheShopKey + LongText(shop.id.value) !in u.after
              && AgreeOutside(kv, u.after, {consts.cacheShopKey + LongText(shop.id.value)})
              && u.rows == UpdateById(rows, shop)
  {
    match shop.id
    case None => UpdateOutcome(Fail("店铺id不能为空"), rows, kv)
    case Some(id) =>
      var written := UpdateById(rows, shop);
      UpdateOutcome(Success(()), written, DeleteCmd(kv, consts.cacheShopKey + LongText(id)).after)
  }

  /**
    The cache is only ever filled by setWithLogicalExpire: once update has
    dropped the entry, queryById answers "店铺不存在!" without reading the
    table, even for a shop that is there, until the entry is warmed again.
  */
  lemma UpdateHidesShopUntilWarmed(rows: seq<Shop>, kv: Keyspace, consts: RedisConstants, shop: Shop,
                                   now: int, rebuildNow: int)
    requires shop.id.Some?
    ensures var u := UpdateStep(rows, kv, consts, shop);
      QueryByIdStep(u.after, consts, u.rows, shop.id.value, now, rebuildNow) == ShopReply(Ok(Fail("店铺不存在!")), u.after)
  {}

  // ---------------------------------------------------------------------
  // queryShopByType

  /** The first offset of page `current`. */
  function PageFrom(current: int, size: int): int { (current - 1) * size }

  /** The offset just past page `current`. */
  function PageEnd(current: int, size: int): int { current * size }

  /** GEOSEARCH ... LIMIT n: the first n hits. */
  function Limit<T>(s: seq<T>, n: nat): (r: seq<T>)
    ensures |r| == if |s| <= n then |s| else n
    ensures r == s[..|r|]
  {
    if |s| <= n then s else s[..n]
  }

  /** The hits of page `current`: the search limited to `end`, with the first `from` skipped; empty when it is that short. */
  function PageHits<T>(hits: seq<T>, current: int, size: int): (r: seq<T>)
    requires current >= 1 && size > 0
    ensures |r| <= size
    ensures r == hits[Min(PageFrom(current, size), |hits|)..Min(PageEnd(current, size), |hits|)]
  {
    var from, end := PageFrom(current, size), PageEnd(current, size);
    MulMonotone(current - 1, size);
    var limited := Limit(hits, end);
    if |limited| <= from then [] else limited[from..]
  }

  function Min(a: int, b: int): int { if a <= b then a else b }

  lemma MulMonotone(a: nat, b: nat)
    ensures a * b >= 0 && (a + 1) * b == a * b + b
  {}

  /** Pages 1 to n, read one after the other, are the first n * size hits, each exactly once and in order. */
  lemma {:induction false} PagesTile<T>(hits: seq<T>, size: int, n: nat)
    requires size > 0
    ensures PagesUpTo(hits, size, n) == hits[..Min(PageEnd(n, size), |hits|)]
  {
    if n > 0 {
      PagesTile(hits, size, n - 1);
      PageBounds(n, size);
      var a, b := Min(PageFrom(n, size), |hits|), Min(PageEnd(n, size), |hits|);
      assert PagesUpTo(hits, size, n) == hits[..a] + hits[a..b];
      assert hits[..a] + hits[a..b] == hits[..b];
    }
  }

  /** Page n starts where page n - 1 ends and spans size positions. */
  lemma PageBounds(n: int, size: int)
    requires n >= 1 && size > 0
    ensures PageFrom(n, size) == PageEnd(n - 1, size) >= 0
    ensures PageEnd(n, size) == PageFrom(n, size) + size
  {
    MulMonotone(n - 1, size);
  }

  /** The hits of pages 1 to n, concatenated. */
  function PagesUpTo<T>(hits: seq<T>, size: int, n: nat): seq<T>
    requires size > 0
  {
    if n == 0 then [] else PagesUpTo(hits, size, n - 1) + PageHits(hits, n, size)
  }

  /** A geo search hit: the set member (the shop id's text) and its distance from the point. */
  datatype GeoHit = GeoHit(member: string, distance: Real)

  /** The geo index of a shop type. */
  function GeoKey(typeId: int): string { "shop:geo:" + LongText(typeId) }

  /** Long.valueOf of every member, in order; one that is not a long fails the whole page. */
  function ParseIds(hits: seq<GeoHit>): (r: Option<seq<int>>)
    ensures r.Some? <==> forall i :: 0 <= i < |hits| ==> ParseLong(hits[i].member).Some?
    ensures r.Some? ==> |r.value| == |hits|
    ensures r.Some? ==> forall i :: 0 <= i < |hits| ==> r.value[i] == ParseLong(hits[i].member).value
  {
    if hits == [] then Some([])
    else
      var init := ParseIds(hits[..|hits| - 1]);
      var last := ParseLong(hits[|hits| - 1].member);
      assert forall i :: 0 <= i < |hits| - 1 ==> hits[..|hits| - 1][i] == hits[i];
      if init.None? || last.None? then None else Some(init.value + [last.value])
  }

  /** distanceMap after the forEach: each member maps to the distance of its last hit. */
  function DistanceMap(hits: seq<GeoHit>): (m: map<string, Real>)
  {
    if hits == [] then map[]
    else
      var last := hits[|hits| - 1];
      DistanceMap(hits[..|hits| - 1])[last.member := last.distance]
  }

  /** The position of the first occurrence of id: what ORDER BY FIELD(id, ...) sorts by. */
  function Position(ids: seq<int>, id: int): (p: nat)
    requires id in ids
    ensures p < |ids| && ids[p] == id
    ensures forall k :: 0 <= k < p ==> ids[k] != id
  {
    if ids[0] == id then 0 else 1 + Position(ids[1..], id)
  }

  /** query().in("id", ids).last("ORDER BY FIELD(id, ids)"): the rows whose id is listed, in the list's order. */
  function ByFieldOrder(rows: seq<Shop>, ids: seq<int>): (r: seq<Shop>)
    ensures forall i :: 0 <= i < |r| ==> r[i] in rows && r[i].id.Some? && r[i].id.value in ids
  {
    if ids == [] then []
    else
      var init := ByFieldOrder(rows, ids[..|ids| - 1]);
      var last := ids[|ids| - 1];
      if last in ids[..|ids| - 1] then init
      else match FindRow(rows, last)
        case None => init
        case Some(s) => init + [s]
  }

  lemma PositionInPrefix(ids: seq<int>, m: nat, id: int)
    requires m <= |ids| && id in ids[..m]
    ensures Position(ids, id) == Position(ids[..m], id)
  {
    var q := Position(ids[..m], id);
    assert ids[q] == id;
  }

  /** The listing is ordered by each id's first position in the list, so no shop appears twice. */
  lemma {:induction false} ByFieldOrderSorts(rows: seq<Shop>, ids: seq<int>)
    ensures forall i, j :: 0 <= i < j < |ByFieldOrder(rows, ids)| ==>
      Position(ids, ByFieldOrder(rows, ids)[i].id.value) < Position(ids, ByFieldOrder(rows, ids)[j].id.value)
  {
    if ids != [] {
      var n := |ids| - 1;
      var prefix := ids[..n];
      var init := ByFieldOrder(rows, prefix);
      var last := ids[n];
      ByFieldOrderSorts(rows, prefix);
      forall i | 0 <= i < |init|
        ensures Position(ids, init[i].id.value) == Position(prefix, init[i].id.value)
        ensures Position(ids, init[i].id.value) < n
      {
        PositionInPrefix(ids, n, init[i].id.value);
      }
      var r := ByFieldOrder(rows, ids);
      if last !in prefix && FindRow(rows, last).Some? {
        assert r == init + [FindRow(rows, last).value];
        assert Position(ids, last) == n by {
          forall k | 0 <= k < n ensures ids[k] != last { assert prefix[k] == ids[k]; }
        }
        forall i, j | 0 <= i < j < |r|
          ensures Position(ids, r[i].id.value) < Position(ids, r[j].id.value)
        {
          if j < |init| {
            assert r[i] == init[i] && r[j] == init[j];
          } else {
            assert r[i] == init[i] && r[j].id.value == last;
          }
        }
      } else {
        assert r == init;
      }
    }
  }

  /** Every listed id that has a row has that row in the listing. */
  lemma {:induction false} ByFieldOrderCovers(rows: seq<Shop>, ids: seq<int>)
    ensures forall id :: id in ids && FindRow(rows, id).Some? ==> FindRow(rows, id).value in ByFieldOrder(rows, ids)
  {
    if ids != [] {
      var n := |ids| - 1;
      var prefix := ids[..n];
      ByFieldOrderCovers(rows, prefix);
      var init := ByFieldOrder(rows, prefix);
      var r := ByFieldOrder(rows, ids);
      forall id | id in ids && FindRow(rows, id).Some?
        ensures FindRow(rows, id).value in r
      {
        if id in prefix {
          assert FindRow(rows, id).value in init;
        } else {
          assert id == ids[n];
        }
      }
    }
  }

  /** The loop over the listed shops: each gets the distance recorded under its id's text; a missing one is a null dereference. */
  function WithDistances(shops: seq<Shop>, dm: map<string, Real>): (r: Result<seq<Shop>>)
    ensures r.Ok? <==> forall i :: 0 <= i < |shops| ==> shops[i].id.Some? && LongText(shops[i].id.value) in dm
    ensures r.Err? ==> r.fault == NullPointer
    ensures r.Ok? ==> |r.value| == |shops| && forall i :: 0 <= i < |shops| ==>
      r.value[i] == shops[i].(distance := Some(dm[LongText(shops[i].id.value)]))
  {
    if shops == [] then Ok([])
    else
      var init := WithDistances(shops[..|shops| - 1], dm);
      var last := shops[|shops| - 1];
      assert forall i :: 0 <= i < |shops| - 1 ==> shops[..|shops| - 1][i] == shops[i];
      if init.Err? || last.id.None? || LongText(last.id.value) !in dm then Err(NullPointer)
      else Ok(init.value + [last.(distance := Some(dm[LongText(last.id.value)]))])
  }

  /**
    queryShopByType(typeId, current, x, y) for a point: the geo search of
    the type's index, nearest first, limited to the end of the page;
    `search` is the store's answer for a key (null when it gives none).
  */
  function ShopsNearStep(rows: seq<Shop>, typeId: int, current: int, size: int,
                         search: string -> Option<seq<GeoHit>>): (r: Result<seq<Shop>>)
    requires size > 0
    ensures current < 1 ==> r == Err(IllegalArgument)
    ensures current >= 1 && (search(GeoKey(typeId)).None? || |PageHits(search(GeoKey(typeId)).value, current, size)| == 0)
      ==> r == Ok([])
    ensures r.Ok? ==> |r.value| <= size
  {
    if current < 1 then Err(IllegalArgument)
    else match search(GeoKey(typeId))
      case None => Ok([])
      case Some(found) =>
        var hits := PageHits(found, current, size);
        if hits == [] then Ok([])
        else match ParseIds(hits)
          case None => Err(NumberFormat)
          case Some(ids) =>
            ByFieldOrderBound(rows, ids);
            WithDistances(ByFieldOrder(rows, ids), DistanceMap(hits))
  }

  /** Each listed id contributes at most one shop. */
  lemma {:induction false} ByFieldOrderBound(rows: seq<Shop>, ids: seq<int>)
    ensures |ByFieldOrder(rows, ids)| <= |ids|
  {
    if ids != [] {
      ByFieldOrderBound(rows, ids[..|ids| - 1]);
    }
  }

  /**
    When every hit's member is the text of its id, as the index is filled,
    each listed shop carries the distance of a hit for that shop.
  */
  lemma ShopsNearCarryDistances(rows: seq<Shop>, typeId: int, current: int, size: int,
                                search: string -> Option<seq<GeoHit>>)
    requires size > 0 && current >= 1 && search(GeoKey(typeId)).Some?
    requires CanonicalMembers(search(GeoKey(typeId)).value)
    ensures var r := ShopsNearStep(rows, typeId, current, size, search);
      && r.Ok?
      && forall i :: 0 <= i < |r.value| ==> HasHit(search(GeoKey(typeId)).value, r.value[i])
  {
    var found := search(GeoKey(typeId)).value;
    var hits := PageHits(found, current, size);
    if hits != [] {
      PageHitsIn(found, current, size);
      var ids := ParseIds(hits).value;
      var listed := ByFieldOrder(rows, ids);
      ListedHaveDistances(hits, ids, listed);
      var r := WithDistances(listed, DistanceMap(hits));
      forall i | 0 <= i < |r.value|
        ensures HasHit(found, r.value[i])
      {
        DistanceIsAHit(hits, found, listed[i].id.value);
      }
    }
  }

  /** Every member is the text of the id it parses to. */
  predicate CanonicalMembers(hits: seq<GeoHit>)
  {
    forall h :: h in hits ==> ParseLong(h.member).Some? && LongText(ParseLong(h.member).value) == h.member
  }

  /** The shop has an id, and its distance is that of a hit for that id. */
  predicate HasHit(hits: seq<GeoHit>, shop: Shop)
  {
    shop.id.Some? && exists h :: h in hits && h.member == LongText(shop.id.value) && shop.distance == Some(h.distance)
  }

  lemma ListedHaveDistances(hits: seq<GeoHit>, ids: seq<int>, listed: seq<Shop>)
    requires CanonicalMembers(hits) && ParseIds(hits) == Some(ids)
    requires forall i :: 0 <= i < |listed| ==> listed[i].id.Some? && listed[i].id.value in ids
    ensures forall i :: 0 <= i < |listed| ==> LongText(listed[i].id.value) in DistanceMap(hits)
  {
    forall i | 0 <= i < |listed|
      ensures LongText(listed[i].id.value) in DistanceMap(hits)
    {
      var k :| 0 <= k < |ids| && ids[k] == listed[i].id.value;
      assert hits[k] in hits;
      var _ := LastHit(hits, hits[k].member, k);
    }
  }

  lemma DistanceIsAHit(hits: seq<GeoHit>, found: seq<GeoHit>, id: int)
    requires LongText(id) in DistanceMap(hits)
    requires forall h :: h in hits ==> h in found
    ensures exists h :: h in found && h.member == LongText(id) && DistanceMap(hits)[LongText(id)] == h.distance
  {
    var k := MemberHasHit(hits, LongText(id));
    var last := LastHit(hits, LongText(id), k);
    assert hits[last] in hits;
  }

  /** Every key of distanceMap comes from a hit. */
  lemma {:induction false} MemberHasHit(hits: seq<GeoHit>, key: string) returns (k: nat)
    requires key in DistanceMap(hits)
    ensures k < |hits| && hits[k].member == key
    decreases |hits|
  {
    var n := |hits| - 1;
    if hits[n].member == key {
      k := n;
    } else {
      k := MemberHasHit(hits[..n], key);
    }
  }

  /** A member with a hit is in distanceMap, and maps to the distance of its last hit. */
  lemma {:induction false} LastHit(hits: seq<GeoHit>, key: string, k: nat) returns (last: nat)
    requires k < |hits| && hits[k].member == key
    ensures k <= last < |hits| && hits[last].member == key
    ensures forall j :: last < j < |hits| ==> hits[j].member != key
    ensures key in DistanceMap(hits) && DistanceMap(hits)[key] == hits[last].distance
    decreases |hits|
  {
    var n := |hits| - 1;
    if hits[n].member == key {
      last := n;
    } else {
      var init := hits[..n];
      assert init[k] == hits[k];
      last := LastHit(init, key, k);
      assert forall j :: last < j < n ==> init[j] == hits[j];
    }
  }

  /** queryShopByType without a point: page `current` of the type's rows; a page below 1 is page 1. */
  function ShopsOfTypePage(rows: seq<Shop>, typeId: int, current: int, size: int): (r: seq<Shop>)
    requires size > 0
    ensures |r| <= size
    ensures forall s :: s in r ==> s in rows && s.typeId == Some(typeId)
    ensures var ofType, page := OfType(rows, typeId), if current > 1 then current else 1;
      r == ofType[Min(PageFrom(page, size), |ofType|)..Min(PageEnd(page, size), |ofType|)]
  {
    var ofType := OfType(rows, typeId);
    var page := PageHits(ofType, if current > 1 then current else 1, size);
    PageHitsIn(ofType, if current > 1 then current else 1, size);
    page
  }

  /** A page holds nothing but hits. */
  lemma PageHitsIn<T>(hits: seq<T>, current: int, size: int)
    requires current >= 1 && size > 0
    ensures forall x :: x in PageHits(hits, current, size) ==> x in hits
  {
    var page := PageHits(hits, current, size);
    var a := Min(PageFrom(current, size), |hits|);
    forall x | x in page ensures x in hits {
      var i :| 0 <= i < |page| && page[i] == x;
      assert hits[a + i] == x;
    }
  }

  /** The rows of a type, in table order. */
  function OfType(rows: seq<Shop>, typeId: int): (r: seq<Shop>)
    ensures forall s :: s in r <==> s in rows && s.typeId == Some(typeId)
  {
    if rows == [] then []
    else (if rows[0].typeId == Some(typeId) then [rows[0]] else []) + OfType(rows[1..], typeId)
  }

  // ---------------------------------------------------------------------
  // The loops of queryShopByType

  /** The forEach over the skipped hits: the parsed ids, in order, and the distance recorded for each member. */
  method CollectHits(hits: seq<GeoHit>) returns (r: Option<(seq<int>, map<string, Real>)>)
    ensures r.None? <==> ParseIds(hits).None?
    ensures r.Some? ==> r.value == (ParseIds(hits).value, DistanceMap(hits))
  {
    var ids: seq<int> := [];
    var distanceMap: map<string, Real> := map[];
    var i := 0;
    while i < |hits|
      invariant 0 <= i <= |hits|
      invariant ParseIds(hits[..i]) == Some(ids)
      invariant distanceMap == DistanceMap(hits[..i])
    {
      var shopId := ParseLong(hits[i].member);
      CollectStep(hits, i);
      if shopId.None? {
        PrefixParseFails(hits, i + 1);
        return None;
      }
      ids := ids + [shopId.value];
      distanceMap := distanceMap[hits[i].member := hits[i].distance];
      i := i + 1;
    }
    assert hits[..i] == hits;
    r := Some((ids, distanceMap));
  }

  /** One more hit: its id is appended and its distance recorded. */
  lemma CollectStep(hits: seq<GeoHit>, i: nat)
    requires i < |hits|
    ensures var prefix := ParseIds(hits[..i]);
      var id := ParseLong(hits[i].member);
      && ParseIds(hits[..i + 1]) == (if prefix.None? || id.None? then None else Some(prefix.value + [id.value]))
      && DistanceMap(hits[..i + 1]) == DistanceMap(hits[..i])[hits[i].member := hits[i].distance]
  {
    assert hits[..i + 1][..i] == hits[..i];
  }

  /** A prefix that fails to parse makes the whole list fail. */
  lemma PrefixParseFails(hits: seq<GeoHit>, n: nat)
    requires n <= |hits| && ParseIds(hits[..n]).None?
    ensures ParseIds(hits).None?
  {
    var i :| 0 <= i < n && ParseLong(hits[..n][i].member).None?;
    assert hits[i] == hits[..n][i];
  }

  /** for (Shop shop : shops) shop.setDistance(distanceMap.get(shop.getId().toString()).getValue()). */
  method FillDistances(shops: seq<Shop>, distanceMap: map<string, Real>) returns (r: Result<seq<Shop>>)
    ensures r == WithDistances(shops, distanceMap)
  {
    var filled := shops;
    var i := 0;
    while i < |shops|
      invariant 0 <= i <= |shops| && |filled| == |shops|
      invariant filled[i..] == shops[i..]
      invariant WithDistances(shops[..i], distanceMap) == Ok(filled[..i])
    {
      assert shops[..i + 1][..i] == shops[..i];
      var shop := filled[i];
      if shop.id.None? || LongText(shop.id.value) !in distanceMap {
        PrefixDistanceFails(shops, distanceMap, i + 1);
        return Err(NullPointer);
      }
      filled := filled[i := shop.(distance := Some(distanceMap[LongText(shop.id.value)]))];
      assert filled[..i + 1] == filled[..i] + [filled[i]];
      i := i + 1;
    }
    assert shops[..i] == shops && filled[..i] == filled;
    r := Ok(filled);
  }

  lemma PrefixDistanceFails(shops: seq<Shop>, dm: map<string, Real>, n: nat)
    requires n <= |shops| && WithDistances(shops[..n], dm).Err?
    ensures WithDistances(shops, dm).Err?
  {
    var i :| 0 <= i < n && !(shops[..n][i].id.Some? && LongText(shops[..n][i].id.value) in dm);
    assert shops[i] == shops[..n][i];
  }

  /** The shop service: the shop table, and the cache client over the shared store template. */
  class ShopServiceImpl {
    var rows: seq<Shop>
    const cacheClient: CacheClient
    const sys: SystemConstants

    constructor (rows: seq<Shop>, cacheClient: CacheClient, sys: SystemConstants)
      ensures this.rows == rows && this.cacheClient == cacheClient && this.sys == sys
    {
      this.rows := rows;
      this.cacheClient := cacheClient;
      this.sys := sys;
    }

    /** queryById(id) at clock reading `now`, with the rebuild's own clock reading `rebuildNow`. */
    method QueryById(id: int, now: int, rebuildNow: int) returns (r: Result<Response<Shop>>)
      modifies cacheClient.template
      ensures ShopReply(r, cacheClient.template.kv)
        == QueryByIdStep(old(cacheClient.template.kv), cacheClient.consts, rows, id, now, rebuildNow)
    {
      var shop, _ := cacheClient.QueryWithLogicalExpire(cacheClient.consts.cacheShopKey, LongText(id), ShopCodec(),
                        cacheClient.consts.cacheShopTtl, Minutes, ShopLoader(rows), now, rebuildNow);
      match shop
      case Err(f) => r := Err(f);
      case Ok(None) => r := Ok(Fail("店铺不存在!"));
      case Ok(Some(s)) => r := Ok(Success(s));
    }

    method Update(shop: Shop) returns (r: Response<()>)
      modifies this, cacheClient.template
      ensures UpdateOutcome(r, rows, cacheClient.template.kv)
        == UpdateStep(old(rows), old(cacheClient.template.kv), cacheClient.consts, shop)
    {
      if shop.id.None? {
        return Fail("店铺id不能为空");
      }
      rows := UpdateById(rows, shop);
      var _ := cacheClient.template.Delete(cacheClient.consts.cacheShopKey + LongText(shop.id.value));
      r := Success(());
    }

    /**
      queryShopByType(typeId, current, x, y): the type's rows page by page
      without a point, the geo listing with one.
    */
    method QueryShopByType(typeId: int, current: int, x: Option<Real>, y: Option<Real>,
                           search: string -> Option<seq<GeoHit>>) returns (r: Result<seq<Shop>>)
      requires sys.defaultPageSize > 0
      ensures x.None? || y.None? ==> r == Ok(ShopsOfTypePage(rows, typeId, current, sys.defaultPageSize))
      ensures x.Some? && y.Some? ==> r == ShopsNearStep(rows, typeId, current, sys.defaultPageSize, search)
    {
      if x.None? || y.None? {
        return Ok(ShopsOfTypePage(rows, typeId, current, sys.defaultPageSize));
      }
      if current < 1 {
        return Err(IllegalArgument);
      }
      var from := (current - 1) * sys.defaultPageSize;
      var end := current * sys.defaultPageSize;
      var results := search(GeoKey(typeId));
      if results.None? {
        return Ok([]);
      }
      MulMonotone(current - 1, sys.defaultPageSize);
      var list := Limit(results.value, end);
      if |list| <= from {
        return Ok([]);
      }
      var collected := CollectHits(list[from..]);
      if collected.None? {
        return Err(NumberFormat);
      }
      var (ids, distanceMap) := collected.value;
      var shops := ByFieldOrder(rows, ids);
      r := FillDistances(shops, distanceMap);
    }
  }
}
