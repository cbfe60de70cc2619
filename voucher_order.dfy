/**
  Seckill ordering: seckillVoucher admits a request through the admission
  script and queues the order on the stream "stream.orders"; a single
  consumer reads the stream, creates each order under a per-user lock, and
  acknowledges it. A failure sends the consumer to re-read its pending list.
*/
module VoucherOrders {
  import opened Wrappers
  import opened Strings
  import opened JavaLong
  import opened Redis
  import opened IdWorker
  import opened Dto

  datatype VoucherOrder = VoucherOrder(id: int, userId: int, voucherId: int)

  /** The rows createVoucherOrder reads and writes: tb_voucher_order and the stock column of tb_seckill_voucher. */
  datatype Tables = Tables(orders: seq<VoucherOrder>, stock: map<int, int>)

  /** count() of the orders whose user_id and voucher_id match. */
  function CountMatching(orders: seq<VoucherOrder>, userId: int, voucherId: int): (n: nat)
    ensures n <= |orders|
  {
    if orders == [] then 0
    else
      var last := orders[|orders| - 1];
      CountMatching(orders[..|orders| - 1], userId, voucherId)
        + (if last.userId == userId && last.voucherId == voucherId then 1 else 0)
  }

  /** The count is zero exactly when no row matches. */
  lemma {:induction false} CountMatchingZero(orders: seq<VoucherOrder>, userId: int, voucherId: int)
    ensures CountMatching(orders, userId, voucherId) == 0
      <==> forall i :: 0 <= i < |orders| ==> !(orders[i].userId == userId && orders[i].voucherId == voucherId)
  {
    if orders != [] {
      var init := orders[..|orders| - 1];
      CountMatchingZero(init, userId, voucherId);
      assert forall i :: 0 <= i < |init| ==> init[i] == orders[i];
    }
  }

  /** The primary key: some row already has this order id. */
  predicate IdTaken(orders: seq<VoucherOrder>, id: int)
  {
    exists i :: 0 <= i < |orders| && orders[i].id == id
  }

  predicate StockNonNegative(db: Tables)
  {
    forall v :: v in db.stock ==> db.stock[v] >= 0
  }

  /** What a transactional step returned (normally or by an exception) and the tables after it. */
  datatype Step = Step(reply: Result<()>, db: Tables)

  /**
    createVoucherOrder as written. The duplicate query filters user_id by the
    order's own id; the guarded decrement changes nothing when stock is not
    positive; an insert that clashes on the order id throws and the
    transaction rolls the decrement back.
  */
  function CreateVoucherOrderStep(db: Tables, order: VoucherOrder): (s: Step)
    ensures s.db == db || (s.reply.Ok? && OrderAdded(db, order, s.db))
    ensures CountMatching(db.orders, order.id, order.voucherId) > 0 ==> s == Step(Ok(()), db)
    ensures (order.voucherId !in db.stock || db.stock[order.voucherId] <= 0) ==> s.db == db
    ensures s.reply.Err? <==>
      CountMatching(db.orders, order.id, order.voucherId) == 0
      && order.voucherId in db.stock && db.stock[order.voucherId] > 0 && IdTaken(db.orders, order.id)
  {
    var userId := order.id;
    if CountMatching(db.orders, userId, order.voucherId) > 0 then Step(Ok(()), db)
    else if order.voucherId !in db.stock || db.stock[order.voucherId] <= 0 then Step(Ok(()), db)
    else if IdTaken(db.orders, order.id) then Step(Err(DuplicateKey), db)
    else Step(Ok(()), Tables(db.orders + [order], db.stock[order.voucherId := db.stock[order.voucherId] - 1]))
  }

  /** Exactly one row appended and the voucher's positive stock lowered by exactly one. */
  predicate OrderAdded(db: Tables, order: VoucherOrder, db': Tables)
  {
    && db'.orders == db.orders + [order]
    && order.voucherId in db.stock && db.stock[order.voucherId] > 0
    && db'.stock == db.stock[order.voucherId := db.stock[order.voucherId] - 1]
  }

  /** One order per user and voucher: what the duplicate check is for. */
  predicate OnePerUserAndVoucher(orders: seq<VoucherOrder>)
  {
    forall i, j :: 0 <= i < j < |orders| ==>
      !(orders[i].userId == orders[j].userId && orders[i].voucherId == orders[j].voucherId)
  }

  /**
    The check as written lets a user buy a voucher twice: two orders with
    distinct ids for user 1 and voucher 7 are both saved.
  */
  lemma CreateVoucherOrderAdmitsRepeatBuyer()
    ensures var db := Tables([], map[7 := 2]);
      var first := CreateVoucherOrderStep(db, VoucherOrder(100, 1, 7));
      var second := CreateVoucherOrderStep(first.db, VoucherOrder(101, 1, 7));
      first.reply.Ok? && second.reply.Ok?
      && second.db.orders == [VoucherOrder(100, 1, 7), VoucherOrder(101, 1, 7)]
      && !OnePerUserAndVoucher(second.db.orders)
  {
    var db := Tables([], map[7 := 2]);
    var first := CreateVoucherOrderStep(db, VoucherOrder(100, 1, 7));
    assert first.db == Tables([VoucherOrder(100, 1, 7)], map[7 := 1]);
    assert CountMatching(first.db.orders, 101, 7) == 0;
    assert !IdTaken(first.db.orders, 101);
    var second := CreateVoucherOrderStep(first.db, VoucherOrder(101, 1, 7));
    assert second.db.orders[0].userId == second.db.orders[1].userId;
  }

  /** createVoucherOrder with the duplicate query on the order's user id. */
  function CreateVoucherOrderIntended(db: Tables, order: VoucherOrder): (s: Step)
    ensures s.db == db || (s.reply.Ok? && OrderAdded(db, order, s.db))
    ensures CountMatching(db.orders, order.userId, order.voucherId) > 0 ==> s == Step(Ok(()), db)
  {
    if CountMatching(db.orders, order.userId, order.voucherId) > 0 then Step(Ok(()), db)
    else if order.voucherId !in db.stock || db.stock[order.voucherId] <= 0 then Step(Ok(()), db)
    else if IdTaken(db.orders, order.id) then Step(Err(DuplicateKey), db)
    else Step(Ok(()), Tables(db.orders + [order], db.stock[order.voucherId := db.stock[order.voucherId] - 1]))
  }

  /** With the intended check, no user ever holds two orders for one voucher. */
  lemma CreateVoucherOrderIntendedKeepsOnePerUser(db: Tables, order: VoucherOrder)
    requires OnePerUserAndVoucher(db.orders)
    ensures OnePerUserAndVoucher(CreateVoucherOrderIntended(db, order).db.orders)
  {
    var s := CreateVoucherOrderIntended(db, order);
    if s.db != db {
      CountMatchingZero(db.orders, order.userId, order.voucherId);
      var orders := s.db.orders;
      forall i, j | 0 <= i < j < |orders|
        ensures !(orders[i].userId == orders[j].userId && orders[i].voucherId == orders[j].voucherId)
      {
        if j == |orders| - 1 {
          assert orders[i] == db.orders[i];
        } else {
          assert orders[i] == db.orders[i] && orders[j] == db.orders[j];
        }
      }
    }
  }

  // ---------------------------------------------------------------------
  // The order stream and its consumer

  /** A stream entry: its id and the order fields the admission script wrote. */
  datatype StreamRecord = StreamRecord(id: nat, order: VoucherOrder)

  /**
    "stream.orders" as consumer c1 of group g1 sees it: every entry, how many
    have been delivered as new (">"), and the pending list of entries
    delivered but not yet acknowledged.
  */
  datatype Stream = Stream(entries: seq<StreamRecord>, delivered: nat, pending: seq<StreamRecord>)

  /** XACK: the entry with that id leaves the pending list. */
  function Ack(pending: seq<StreamRecord>, id: nat): (r: seq<StreamRecord>)
    ensures |r| <= |pending|
    ensures pending != [] && pending[0].id == id ==> |r| < |pending|
    ensures forall i :: 0 <= i < |r| ==> r[i].id != id && r[i] in pending
    ensures forall i :: 0 <= i < |pending| && pending[i].id != id ==> pending[i] in r
  {
    if pending == [] then []
    else if pending[0].id == id then Ack(pending[1..], id)
    else [pending[0]] + Ack(pending[1..], id)
  }

  /** XREADGROUP ... COUNT 1 STREAMS stream.orders >: the next new entry, now pending. */
  function ReadNew(s: Stream): (r: Option<(StreamRecord, Stream)>)
    ensures r.None? <==> s.delivered >= |s.entries|
    ensures r.Some? ==>
              && r.value.0 == s.entries[s.delivered]
              && r.value.1 == Stream(s.entries, s.delivered + 1, s.pending + [r.value.0])
  {
    if s.delivered < |s.entries| then
      var record := s.entries[s.delivered];
      Some((record, Stream(s.entries, s.delivered + 1, s.pending + [record])))
    else None
  }

  /** Everything the consumer reads and writes. */
  datatype Orders = Orders(db: Tables, locks: set<string>, stream: Stream, proxySet: bool)

  function OrderLockName(userId: int): string { "lock:order:" + LongText(userId) }

  /**
    handleVoucherOrder: a held lock for the order's user makes it return
    without doing anything; otherwise createVoucherOrder runs through the
    transactional proxy (null until seckillVoucher first admits an order)
    and the lock is released whatever happens.
  */
  function HandleStep(st: Orders, order: VoucherOrder): (r: (Result<()>, Orders))
    ensures r.1.locks == st.locks && r.1.stream == st.stream && r.1.proxySet == st.proxySet
    ensures OrderLockName(order.userId) in st.locks ==> r == (Ok(()), st)
    ensures r.0.Err? ==> r.1 == st
  {
    if OrderLockName(order.userId) in st.locks then (Ok(()), st)
    else if !st.proxySet then (Err(NullPointer), st)
    else
      var s := CreateVoucherOrderStep(st.db, order);
      (s.reply, st.(db := s.db))
  }

  /** Handling an order never drives a voucher's stock below zero. */
  lemma HandleKeepsStock(st: Orders, order: VoucherOrder)
    requires StockNonNegative(st.db)
    ensures StockNonNegative(HandleStep(st, order).1.db)
  {
    var s := CreateVoucherOrderStep(st.db, order);
    if s.db != st.db {
      assert OrderAdded(st.db, order, s.db);
    }
  }

  /** The consumer after a step: still looping, or ended by an exception that escaped run(). */
  datatype Worker = Alive(st: Orders) | Died(st: Orders)

  /**
    handlePendingList as written: take the first pending entry, handle and
    acknowledge it, until the pending list is empty; a failure sleeps and
    then throws a RuntimeException that nothing catches.
  */
  function DrainStep(st: Orders): (w: Worker)
    ensures w.Alive? ==> w.st.stream.pending == []
    ensures w.Died? ==> w.st.stream.pending != [] && HandleStep(w.st, w.st.stream.pending[0].order).0.Err?
    ensures st.stream.pending != [] && HandleStep(st, st.stream.pending[0].order).0.Err? ==> w == Died(st)
    ensures forall i :: 0 <= i < |w.st.stream.pending| ==> w.st.stream.pending[i] in st.stream.pending
    ensures w.st.stream.entries == st.stream.entries && w.st.stream.delivered == st.stream.delivered
    decreases |st.stream.pending|
  {
    if st.stream.pending == [] then Alive(st)
    else
      var record := st.stream.pending[0];
      var (res, st') := HandleStep(st, record.order);
      if res.Err? then Died(st')
      else DrainStep(st'.(stream := st'.stream.(pending := Ack(st'.stream.pending, record.id))))
  }

  /**
    One pass of run()'s loop: an empty read changes nothing; an entry is
    acknowledged after handleVoucherOrder returns normally; an exception
    leaves it pending and drains the pending list.
  */
  function RoundStep(st: Orders): (w: Worker)
    ensures st.stream.delivered >= |st.stream.entries| ==> w == Alive(st)
    ensures w.st.stream.entries == st.stream.entries
    ensures w.st.stream.delivered == if st.stream.delivered < |st.stream.entries| then st.stream.delivered + 1
                                     else st.stream.delivered
    ensures st.stream.delivered < |st.stream.entries| ==>
              var record := st.stream.entries[st.stream.delivered];
              var read := st.(stream := Stream(st.stream.entries, st.stream.delivered + 1, st.stream.pending + [record]));
              var handled := HandleStep(read, record.order);
              && (handled.0.Ok? ==>
                    && w.Alive? && w.st.db == handled.1.db
                    && (forall i :: 0 <= i < |w.st.stream.pending| ==> w.st.stream.pending[i].id != record.id)
                    && (forall i :: 0 <= i < |st.stream.pending| && st.stream.pending[i].id != record.id ==>
                          st.stream.pending[i] in w.st.stream.pending))
              && (handled.0.Err? ==> w == DrainStep(read))
  {
    match ReadNew(st.stream)
    case None => Alive(st)
    case Some((record, stream')) =>
      var (res, st') := HandleStep(st.(stream := stream'), record.order);
      if res.Ok? then
        assert forall i :: 0 <= i < |st.stream.pending| ==> st.stream.pending[i] == st'.stream.pending[i];
        Alive(st'.(stream := st'.stream.(pending := Ack(st'.stream.pending, record.id))))
      else DrainStep(st')
  }

  /** `rounds` passes of a loop whose one pass is `pass`, or fewer when a pass ends it. */
  function Iterate(pass: Orders -> Worker, st: Orders, rounds: nat): (w: Worker)
    decreases rounds
  {
    if rounds == 0 then Alive(st)
    else match pass(st)
      case Died(st') => Died(st')
      case Alive(st') => Iterate(pass, st', rounds - 1)
  }

  /** n + 1 passes are n passes and then, if the loop is still running, one more. */
  lemma {:induction false} IterateSnoc(pass: Orders -> Worker, st: Orders, n: nat)
    ensures Iterate(pass, st, n + 1) == match Iterate(pass, st, n)
                                          case Died(s) => Died(s)
                                          case Alive(s) => pass(s)
    decreases n
  {
    if n > 0 {
      match pass(st)
      case Died(_) =>
      case Alive(s) => IterateSnoc(pass, s, n - 1);
    }
  }

  /** Once a pass has ended the loop, further passes change nothing. */
  lemma {:induction false} IterateDiedStays(pass: Orders -> Worker, st: Orders, n: nat, m: nat)
    requires n <= m && Iterate(pass, st, n).Died?
    ensures Iterate(pass, st, m) == Iterate(pass, st, n)
    decreases m - n
  {
    if n < m {
      IterateSnoc(pass, st, n);
      IterateDiedStays(pass, st, n + 1, m);
    }
  }

  /** A property of the state that every pass keeps holds after any number of passes. */
  lemma {:induction false} IteratePreserves(pass: Orders -> Worker, inv: Orders -> bool, st: Orders, rounds: nat)
    requires forall s :: inv(s) ==> inv(pass(s).st)
    requires inv(st)
    ensures inv(Iterate(pass, st, rounds).st)
    decreases rounds
  {
    if rounds > 0 && pass(st).Alive? {
      IteratePreserves(pass, inv, pass(st).st, rounds - 1);
    }
  }

  /** `rounds` passes of run()'s loop, or fewer when an exception ends it. */
  function RunSpec(st: Orders, rounds: nat): (w: Worker)
  {
    Iterate(RoundStep, st, rounds)
  }

  lemma {:induction false} DrainKeepsStock(st: Orders)
    requires StockNonNegative(st.db)
    ensures StockNonNegative(DrainStep(st).st.db)
    decreases |st.stream.pending|
  {
    if st.stream.pending != [] {
      var record := st.stream.pending[0];
      HandleKeepsStock(st, record.order);
      var (res, st') := HandleStep(st, record.order);
      if res.Ok? {
        DrainKeepsStock(st'.(stream := st'.stream.(pending := Ack(st'.stream.pending, record.id))));
      }
    }
  }

  lemma RoundKeepsStock(st: Orders)
    requires StockNonNegative(st.db)
    ensures StockNonNegative(RoundStep(st).st.db)
  {
    match ReadNew(st.stream)
    case None =>
    case Some((record, stream')) =>
      HandleKeepsStock(st.(stream := stream'), record.order);
      var (res, st') := HandleStep(st.(stream := stream'), record.order);
      if res.Err? {
        DrainKeepsStock(st');
      }
  }

  /** Stock never goes negative, however the consumer runs. */
  lemma RunKeepsStockNonNegative(st: Orders, rounds: nat)
    requires StockNonNegative(st.db)
    ensures StockNonNegative(RunSpec(st, rounds).st.db)
  {
    forall s: Orders | StockNonNegative(s.db)
      ensures StockNonNegative(RoundStep(s).st.db)
    {
      RoundKeepsStock(s);
    }
    IteratePreserves(RoundStep, (s: Orders) => StockNonNegative(s.db), st, rounds);
  }

  /**
    A stream whose first entry repeats an order id already saved, so its
    insert clashes on the primary key, followed by a second order.
  */
  function ClashingOrders(): Orders
  {
    var saved := VoucherOrder(100, 1, 7);
    Orders(Tables([saved], map[7 := 5]), {},
           Stream([StreamRecord(0, saved), StreamRecord(1, VoucherOrder(101, 2, 7))], 0, []), true)
  }

  /**
    The clashing entry fails on every retry, so the drain throws and the
    consumer stops with the second entry still unread.
  */
  lemma RunAsWrittenDies()
    ensures var w := RunSpec(ClashingOrders(), 2);
      w.Died? && w.st.stream.delivered == 1 && |w.st.stream.entries| == 2
  {
    var saved := VoucherOrder(100, 1, 7);
    assert [saved][0].id == 100;
  }

  /**
    handlePendingList with the failure caught, so the loop retries the first
    pending entry until it is handled: None when the pending list is still not
    empty after `fuel` attempts.
  */
  function DrainIntended(st: Orders, fuel: nat): (r: Option<Orders>)
    ensures r.Some? ==> r.value.stream.pending == []
    ensures r.Some? ==> r.value.stream.entries == st.stream.entries && r.value.stream.delivered == st.stream.delivered
    decreases fuel
  {
    if st.stream.pending == [] then Some(st)
    else if fuel == 0 then None
    else DrainIntended(Attempt(st), fuel - 1)
  }

  /** One attempt at the first pending entry: acknowledged when handled, otherwise left pending. */
  function Attempt(st: Orders): (r: Orders)
    requires st.stream.pending != []
    ensures r.stream.entries == st.stream.entries && r.stream.delivered == st.stream.delivered
    ensures HandleStep(st, st.stream.pending[0].order).0.Err? ==> r == st
  {
    var record := st.stream.pending[0];
    var (res, st') := HandleStep(st, record.order);
    if res.Err? then st'
    else st'.(stream := st'.stream.(pending := Ack(st'.stream.pending, record.id)))
  }

  /** More attempts do not change a drain that has finished: the fuel only bounds the retries. */
  lemma {:induction false} DrainIntendedFuel(st: Orders, fuel: nat, more: nat)
    requires DrainIntended(st, fuel).Some? && fuel <= more
    ensures DrainIntended(st, more) == DrainIntended(st, fuel)
    decreases fuel
  {
    if st.stream.pending != [] {
      DrainIntendedFuel(Attempt(st), fuel - 1, more - 1);
    }
  }

  /** run()'s loop with the intended drain: None when a drain has not finished within `fuel` attempts. */
  function RoundIntended(st: Orders, fuel: nat): (r: Option<Orders>)
    ensures r.Some? ==> r.value.stream.entries == st.stream.entries
    ensures r.Some? ==> r.value.stream.delivered == if st.stream.delivered < |st.stream.entries| then st.stream.delivered + 1
                                                  else st.stream.delivered
    ensures r.Some? && st.stream.pending == [] ==> r.value.stream.pending == []
  {
    match ReadNew(st.stream)
    case None => Some(st)
    case Some((record, stream')) =>
      var (res, st') := HandleStep(st.(stream := stream'), record.order);
      if res.Ok? then
        assert st.stream.pending == [] ==> st'.stream.pending == [record];
        assert Ack([record], record.id) == [];
        Some(st'.(stream := st'.stream.(pending := Ack(st'.stream.pending, record.id))))
      else DrainIntended(st', fuel)
  }

  /**
    `rounds` passes with the intended drain. An exception no longer ends the
    consumer: whenever its drains finish, it has read the next `rounds`
    entries (up to the end of the stream) and left nothing pending.
  */
  function RunIntended(st: Orders, rounds: nat, fuel: nat): (r: Option<Orders>)
    ensures r.Some? ==> r.value.stream.entries == st.stream.entries
    ensures r.Some? && st.stream.delivered <= |st.stream.entries| ==>
              r.value.stream.delivered == Min(|st.stream.entries|, st.stream.delivered + rounds)
    ensures r.Some? && st.stream.pending == [] ==> r.value.stream.pending == []
    decreases rounds
  {
    if rounds == 0 then Some(st)
    else match RoundIntended(st, fuel)
      case None => None
      case Some(st') => RunIntended(st', rounds - 1, fuel)
  }

  /** The state after run() has read the clashing entry and its handling failed. */
  function ClashRead(): Orders
  {
    var c := ClashingOrders();
    c.(stream := c.stream.(delivered := 1, pending := [c.stream.entries[0]]))
  }

  /** The intended retry livelocks on the clashing entry: no number of attempts empties the pending list. */
  lemma {:induction false} DrainIntendedLivelocks(fuel: nat)
    ensures DrainIntended(ClashRead(), fuel).None?
    decreases fuel
  {
    var saved := VoucherOrder(100, 1, 7);
    assert [saved][0].id == 100;
    assert HandleStep(ClashRead(), saved) == (Err(DuplicateKey), ClashRead());
    assert Attempt(ClashRead()) == ClashRead();
    if fuel > 0 {
      DrainIntendedLivelocks(fuel - 1);
    }
  }

  /** So even the intended consumer never reads the second entry of the clashing stream. */
  lemma RunIntendedLivelocks(rounds: nat, fuel: nat)
    requires rounds >= 1
    ensures RunIntended(ClashingOrders(), rounds, fuel).None?
  {
    var saved := VoucherOrder(100, 1, 7);
    assert [saved][0].id == 100;
    assert [] + [StreamRecord(0, saved)] == [StreamRecord(0, saved)];
    assert ReadNew(ClashingOrders().stream) == Some((StreamRecord(0, saved), ClashRead().stream));
    assert HandleStep(ClashRead(), saved) == (Err(DuplicateKey), ClashRead());
    assert RoundIntended(ClashingOrders(), fuel) == DrainIntended(ClashRead(), fuel);
    DrainIntendedLivelocks(fuel);
  }

  function Min(a: int, b: int): int { if a <= b then a else b }

  // ---------------------------------------------------------------------
  // seckillVoucher

  /** seckillVoucher's reply for the script's result: 0 admits, 1 is out of stock, anything else a repeat order. */
  function SeckillResponse(result: int, orderId: int): (r: Response<int>)
    ensures IntValue(result) == 0 <==> r == Success(orderId)
    ensures IntValue(result) == 1 ==> r == Fail("库存不足")
    ensures IntValue(result) != 0 && IntValue(result) != 1 ==> r == Fail("不能重复下单")
  {
    var r := IntValue(result);
    if r != 0 then Fail(if r == 1 then "库存不足" else "不能重复下单") else Success(orderId)
  }

  /** The service: the order tables, the Redisson locks held, the order stream and the proxy field. */
  class VoucherOrderService {
    var db: Tables
    var locks: set<string>
    var stream: Stream
    var proxySet: bool
    const idWorker: RedisIdWorker

    ghost function State(): Orders
      reads this
    {
      Orders(db, locks, stream, proxySet)
    }

    constructor (idWorker: RedisIdWorker, db: Tables, stream: Stream)
      ensures State() == Orders(db, {}, stream, false) && this.idWorker == idWorker
    {
      this.idWorker := idWorker;
      this.db := db;
      this.locks := {};
      this.stream := stream;
      this.proxySet := false;
    }

    /**
      seckillVoucher(voucherId) for user `userId` at clock reading `now`. The
      admission script's result is `scriptResult`; on 0 the script has queued
      the order on the stream.
    */
    method SeckillVoucher(voucherId: int, userId: int, now: DateTime, scriptResult: int)
      returns (r: Result<Response<int>>)
      requires ValidDateTime(now)
      modifies this, idWorker.template
      ensures var drawn := NextIdStep(old(idWorker.template.kv), "order", now);
        && idWorker.template.kv == drawn.after
        && (drawn.reply.Err? ==> r == Err(drawn.reply.fault) && State() == old(State()))
        && (drawn.reply.Ok? ==> r == Ok(SeckillResponse(scriptResult, drawn.reply.value)))
        && (drawn.reply.Ok? && scriptResult == 0 ==>
              stream == old(stream).(entries := old(stream.entries)
                + [StreamRecord(|old(stream.entries)|, VoucherOrder(drawn.reply.value, userId, voucherId))]))
        && (drawn.reply.Ok? && scriptResult != 0 ==> stream == old(stream))
        && db == old(db) && locks == old(locks)
        && proxySet == (old(proxySet) || (drawn.reply.Ok? && IntValue(scriptResult) == 0))
    {
      var orderId := idWorker.NextId("order", now);
      if orderId.Err? {
        r := Err(orderId.fault);
        return;
      }
      if scriptResult == 0 {
        var record := StreamRecord(|stream.entries|, VoucherOrder(orderId.value, userId, voucherId));
        stream := stream.(entries := stream.entries + [record]);
      }
      var result := IntValue(scriptResult);
      if result != 0 {
        r := Ok(Fail(if result == 1 then "库存不足" else "不能重复下单"));
        return;
      }
      proxySet := true;
      r := Ok(Success(orderId.value));
    }

    method CreateVoucherOrder(order: VoucherOrder) returns (r: Result<()>)
      modifies this
      ensures Step(r, db) == CreateVoucherOrderStep(old(db), order)
      ensures locks == old(locks) && stream == old(stream) && proxySet == old(proxySet)
    {
      var userId := order.id;
      var count := CountMatching(db.orders, userId, order.voucherId);
      if count > 0 {
        return Ok(());
      }
      var success := order.voucherId in db.stock && db.stock[order.voucherId] > 0;
      if !success {
        return Ok(());
      }
      var before := db;
      db := db.(stock := db.stock[order.voucherId := db.stock[order.voucherId] - 1]);
      if IdTaken(db.orders, order.id) {
        db := before;
        return Err(DuplicateKey);
      }
      db := db.(orders := db.orders + [order]);
      r := Ok(());
    }

    method HandleVoucherOrder(order: VoucherOrder) returns (r: Result<()>)
      modifies this
      ensures (r, State()) == HandleStep(old(State()), order)
    {
      var lock := OrderLockName(order.userId);
      if lock in locks {
        return Ok(());
      }
      locks := locks + {lock};
      if !proxySet {
        r := Err(NullPointer);
      } else {
        r := CreateVoucherOrder(order);
      }
      locks := locks - {lock};
    }

    method Acknowledge(id: nat)
      modifies this
      ensures State() == old(State()).(stream := old(stream).(pending := Ack(old(stream.pending), id)))
    {
      stream := stream.(pending := Ack(stream.pending, id));
    }

    method HandlePendingList() returns (survived: bool)
      modifies this
      ensures DrainStep(old(State())) == (if survived then Alive(State()) else Died(State()))
    {
      while stream.pending != []
        invariant DrainStep(old(State())) == DrainStep(State())
        decreases |stream.pending|
      {
        var record := stream.pending[0];
        var res := HandleVoucherOrder(record.order);
        if res.Err? {
          return false;
        }
        Acknowledge(record.id);
      }
      survived := true;
    }

    /** One pass of VoucherOrderHandler.run()'s loop; the result says whether the loop goes on. */
    method Round() returns (alive: bool)
      modifies this
      ensures RoundStep(old(State())) == (if alive then Alive(State()) else Died(State()))
    {
      alive := true;
      var next := ReadNew(stream);
      if next.None? {
        return;
      }
      var record := next.value.0;
      stream := next.value.1;
      var res := HandleVoucherOrder(record.order);
      if res.Ok? {
        Acknowledge(record.id);
      } else {
        alive := HandlePendingList();
      }
    }

    /** Pass number i + 1 of run() from the state `start`, after i passes that kept the loop running. */
    method Pass(ghost start: Orders, ghost i: nat) returns (alive: bool)
      requires RunSpec(start, i) == Alive(State())
      modifies this
      ensures RunSpec(start, i + 1) == if alive then Alive(State()) else Died(State())
    {
      alive := Round();
      IterateSnoc(RoundStep, start, i);
    }

    /** `rounds` passes of VoucherOrderHandler.run() from the state `start`; the result says whether the loop is still running. */
    method Run(rounds: nat, ghost start: Orders) returns (alive: bool)
      requires start == State()
      modifies this
      ensures RunSpec(start, rounds) == if alive then Alive(State()) else Died(State())
    {
      var i := 0;
      alive := true;
      while i < rounds && alive
        invariant 0 <= i <= rounds
        invariant RunSpec(start, i) == if alive then Alive(State()) else Died(State())
        decreases rounds - i
      {
        alive := Pass(start, i);
        i := i + 1;
      }
      if !alive {
        IterateDiedStays(RoundStep, start, i, rounds);
      }
    }
  }
}
