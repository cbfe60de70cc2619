/**
  ShopTypeServiceImpl.queryOrderBySort: the list of shop types, cache-aside
  under one key with no TTL; the table is read ordered by its sort column.
*/
module ShopTypeService {
  import opened Wrappers
  import opened Json
  import opened Redis
  import opened Dto

  /** A tb_shop_type row. */
  datatype ShopType = ShopType(id: Option<int>, name: Option<string>, icon: Option<string>, sort: Option<int>)

  // ---------------------------------------------------------------------
  // The JSON form of the list

  /** JSONUtil.toJsonStr of a shop type: an object with one member per non-null field. */
  function EncodeType(t: ShopType): (j: Json)
    ensures j.JObj?
  {
    JObj(PutInt(PutText(PutText(PutInt(map[], "id", t.id), "name", t.name), "icon", t.icon), "sort", t.sort))
  }

  function DecodeType(j: Json): Option<ShopType>
  {
    match j
    case JObj(f) =>
      var id := ReadInt(f, "id");
      var name := ReadText(f, "name");
      var icon := ReadText(f, "icon");
      var sort := ReadInt(f, "sort");
      if id.None? || name.None? || icon.None? || sort.None? then None
      else Some(ShopType(id.value, name.value, icon.value, sort.value))
    case _ => None
  }

  lemma TypeRoundTrip(t: ShopType)
    ensures DecodeType(EncodeType(t)) == Some(t)
  {
    assert |"id"| == 2 && |"name"| == 4 && |"icon"| == 4 && "name"[0] != "icon"[0] && |"sort"| == 4;
    assert "sort"[0] != "name"[0] && "sort"[0] != "icon"[0];
    var m0: map<string, Json> := map[];
    var m1 := PutInt(m0, "id", t.id);
    var m2 := PutText(m1, "name", t.name);
    var m3 := PutText(m2, "icon", t.icon);
    ReadPut(m0, "id", t.id, None);
    PutKeeps(m0, "id", t.id, None, "name");
    PutKeeps(m0, "id", t.id, None, "icon");
    PutKeeps(m0, "id", t.id, None, "sort");
    ReadPut(m1, "name", None, t.name);
    PutKeeps(m1, "name", None, t.name, "id");
    PutKeeps(m1, "name", None, t.name, "icon");
    PutKeeps(m1, "name", None, t.name, "sort");
    ReadPut(m2, "icon", None, t.icon);
    PutKeeps(m2, "icon", None, t.icon, "id");
    PutKeeps(m2, "icon", None, t.icon, "name");
    PutKeeps(m2, "icon", None, t.icon, "sort");
    ReadPut(m3, "sort", t.sort, None);
    PutKeeps(m3, "sort", t.sort, None, "id");
    PutKeeps(m3, "sort", t.sort, None, "name");
    PutKeeps(m3, "sort", t.sort, None, "icon");
  }

  /** JSONUtil.toJsonStr of the list: an array of objects. */
  function EncodeTypes(ts: seq<ShopType>): (j: Json)
    ensures j.JArr? && |j.items| == |ts|
  {
    JArr(seq(|ts|, i requires 0 <= i < |ts| => EncodeType(ts[i])))
  }

  /** JSONUtil.toList(text, ShopType.class): an array whose every element converts. */
  function DecodeTypes(items: seq<Json>): (r: Option<seq<ShopType>>)
    ensures r.Some? ==> |r.value| == |items|
  {
    if items == [] then Some([])
    else
      var init := DecodeTypes(items[..|items| - 1]);
      var last := DecodeType(items[|items| - 1]);
      if init.None? || last.None? then None else Some(init.value + [last.value])
  }

  /** The cached list reads back as the list that was written. */
  lemma {:induction false} TypesRoundTrip(ts: seq<ShopType>)
    ensures DecodeTypes(EncodeTypes(ts).items) == Some(ts)
  {
    if ts != [] {
      var n := |ts| - 1;
      var items := EncodeTypes(ts).items;
      assert items[..n] == EncodeTypes(ts[..n]).items;
      TypesRoundTrip(ts[..n]);
      TypeRoundTrip(ts[n]);
      assert ts[..n] + [ts[n]] == ts;
    }
  }

  // ---------------------------------------------------------------------
  // ORDER BY sort ASC

  /** The column order: null first, then ascending. */
  predicate SortLe(a: Option<int>, b: Option<int>)
  {
    a.None? || (b.Some? && a.value <= b.value)
  }

  predicate SortedBySort(s: seq<ShopType>)
  {
    forall i, j :: 0 <= i < j < |s| ==> SortLe(s[i].sort, s[j].sort)
  }

  /** Place t after every element whose sort is not above its own. */
  function Insert(s: seq<ShopType>, t: ShopType): (r: seq<ShopType>)
    ensures multiset(r) == multiset(s) + multiset{t}
    ensures SortedBySort(s) ==> SortedBySort(r)
  {
    if s == [] then [t]
    else
      var n := |s| - 1;
      if SortLe(s[n].sort, t.sort) then
        assert SortedBySort(s) ==> SortedBySort(s + [t]) by {
          if SortedBySort(s) {
            forall i, j | 0 <= i < j < |s| + 1 ensures SortLe((s + [t])[i].sort, (s + [t])[j].sort) {
              if j == n + 1 && i < n { assert SortLe(s[i].sort, s[n].sort); }
            }
          }
        }
        s + [t]
      else
        var r := Insert(s[..n], t) + [s[n]];
        assert s[..n] + [s[n]] == s;
        InsertAppendSorted(s, t, r);
        r
  }

  /** Re-attaching the largest element after inserting into the rest keeps the order. */
  lemma InsertAppendSorted(s: seq<ShopType>, t: ShopType, r: seq<ShopType>)
    requires |s| > 0 && !SortLe(s[|s| - 1].sort, t.sort)
    requires multiset(Insert(s[..|s| - 1], t)) == multiset(s[..|s| - 1]) + multiset{t}
    requires SortedBySort(s[..|s| - 1]) ==> SortedBySort(Insert(s[..|s| - 1], t))
    requires r == Insert(s[..|s| - 1], t) + [s[|s| - 1]]
    ensures SortedBySort(s) ==> SortedBySort(r)
  {
    var n := |s| - 1;
    var front := Insert(s[..n], t);
    if SortedBySort(s) {
      assert SortedBySort(s[..n]);
      forall i | 0 <= i < |front| ensures SortLe(front[i].sort, s[n].sort) {
        assert front[i] in multiset(front);
        assert front[i] in multiset(s[..n]) + multiset{t};
        if front[i] != t {
          assert front[i] in s[..n];
          var k :| 0 <= k < n && s[..n][k] == front[i];
          assert SortLe(s[k].sort, s[n].sort);
        }
      }
    }
  }

  /** query().orderByAsc("sort").list(): the rows by their sort column, ties in table order. */
  function OrderBySort(rows: seq<ShopType>): (r: seq<ShopType>)
    ensures SortedBySort(r)
    ensures multiset(r) == multiset(rows)
  {
    if rows == [] then []
    else
      var n := |rows| - 1;
      assert rows[..n] + [rows[n]] == rows;
      Insert(OrderBySort(rows[..n]), rows[n])
  }

  // ---------------------------------------------------------------------
  // queryOrderBySort

  /** What queryOrderBySort replies (or throws), whether it read the table, and the store afterwards. */
  datatype TypesReply = TypesReply(reply: Result<Response<seq<ShopType>>>, tableRead: bool, after: Keyspace)

  /** The cached text read as a list: only an array of shop types converts. */
  function DecodeCached(v: Value): (r: Result<seq<ShopType>>)
  {
    if v.Doc? && v.json.JArr? && DecodeTypes(v.json.items).Some? then Ok(DecodeTypes(v.json.items).value)
    else Err(BadJson)
  }

  /** queryOrderBySort(): a non-blank cached list answers; otherwise the table, cached with no TTL when non-empty. */
  function QueryOrderBySortStep(kv: Keyspace, consts: RedisConstants, rows: seq<ShopType>): (q: TypesReply)
    ensures !q.tableRead ==> q.after == kv
    ensures q.tableRead <==>
              || consts.cacheShopTypeKey !in kv
              || (Get(kv, consts.cacheShopTypeKey).Found? && IsBlankValue(kv[consts.cacheShopTypeKey].value))
    ensures q.tableRead && rows == [] ==> q == TypesReply(Ok(Fail("没有店铺类型")), true, kv)
    ensures q.tableRead && rows != [] ==>
              && q.reply == Ok(Success(OrderBySort(rows)))
              && q.after == kv[consts.cacheShopTypeKey := Entry(Doc(EncodeTypes(OrderBySort(rows))), Persistent)]
  {
    var key := consts.cacheShopTypeKey;
    match Get(kv, key)
    case WrongTypeRead => TypesReply(Err(WrongType), false, kv)
    case Found(v) =>
      if !IsBlankValue(v) then
        match DecodeCached(v)
        case Err(f) => TypesReply(Err(f), false, kv)
        case Ok(list) => TypesReply(Ok(Success(list)), false, kv)
      else Miss(kv, key, rows)
    case Missing => Miss(kv, key, rows)
  }

  function Miss(kv: Keyspace, key: string, rows: seq<ShopType>): (q: TypesReply)
    ensures q.tableRead
  {
    var shopTypes := OrderBySort(rows);
    if |shopTypes| == 0 then TypesReply(Ok(Fail("没有店铺类型")), true, kv)
    else TypesReply(Ok(Success(shopTypes)), true, SetCmd(kv, key, Doc(EncodeTypes(shopTypes)), Persistent).after)
  }

  /** A successful read of the table makes the next call answer the same list from the cache. */
  lemma MissThenHit(kv: Keyspace, consts: RedisConstants, rows: seq<ShopType>, later: seq<ShopType>)
    requires QueryOrderBySortStep(kv, consts, rows).tableRead && rows != []
    ensures var first := QueryOrderBySortStep(kv, consts, rows);
      var second := QueryOrderBySortStep(first.after, consts, later);
      && !second.tableRead
      && second.reply == first.reply
      && second.after == first.after
  {
    CachedListAnswers(QueryOrderBySortStep(kv, consts, rows).after, consts, later, OrderBySort(rows));
  }

  /** A list cached under the key is the answer, whatever the table holds, and nothing is written. */
  lemma CachedListAnswers(kv: Keyspace, consts: RedisConstants, rows: seq<ShopType>, list: seq<ShopType>)
    requires consts.cacheShopTypeKey in kv && kv[consts.cacheShopTypeKey].value == Doc(EncodeTypes(list))
    ensures QueryOrderBySortStep(kv, consts, rows) == TypesReply(Ok(Success(list)), false, kv)
  {
    TypesRoundTrip(list);
  }

  /** The shop type service: the table, and the shared store template. */
  class ShopTypeServiceImpl {
    var rows: seq<ShopType>
    const template: Template
    const consts: RedisConstants

    constructor (rows: seq<ShopType>, template: Template, consts: RedisConstants)
      ensures this.rows == rows && this.template == template && this.consts == consts
    {
      this.rows := rows;
      this.template := template;
      this.consts := consts;
    }

    method QueryOrderBySort() returns (r: Result<Response<seq<ShopType>>>, tableRead: bool)
      modifies template
      ensures TypesReply(r, tableRead, template.kv) == QueryOrderBySortStep(old(template.kv), consts, rows)
    {
      var key := consts.cacheShopTypeKey;
      var shopTypeJson := template.Read(key);
      tableRead := false;
      if shopTypeJson.WrongTypeRead? {
        return Err(WrongType), false;
      }
      if shopTypeJson.Found? && !IsBlankValue(shopTypeJson.value) {
        var list := DecodeCached(shopTypeJson.value);
        r := if list.Err? then Err(list.fault) else Ok(Success(list.value));
        return;
      }
      tableRead := true;
      var shopTypes := OrderBySort(rows);
      if |shopTypes| == 0 {
        return Ok(Fail("没有店铺类型")), true;
      }
      var _ := template.Set(key, Doc(EncodeTypes(shopTypes)), Persistent);
      r := Ok(Success(shopTypes));
    }
  }
}
