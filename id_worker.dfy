/**
  RedisIdWorker: globally increasing 64-bit ids. The high bits hold the
  seconds since 2021-01-01T00:00:00 UTC, the low 32 bits hold a counter the
  store keeps per key prefix and calendar day.
*/
module IdWorker {
  import opened Wrappers
  import opened Strings
  import opened Redis
  import opened JavaLong

  /** 2021-01-01T00:00:00 in seconds since 1970-01-01T00:00:00 UTC. */
  const BEGIN_TIMESTAMP: int := 1609459200
  /** Width of the counter field. */
  const COUNT_BITS: nat := 32
  const COUNT_SPAN: nat := 0x1_0000_0000

  // ---------------------------------------------------------------------
  // The id layout

  /** `timestamp << COUNT_BITS | count`, with Java's long semantics. */
  function ComposeId(timestamp: int, count: int): (id: int)
    ensures IsLong(id)
  {
    BitOr(ShiftLeft(timestamp, COUNT_BITS), count)
  }

  /** While the timestamp fits 31 bits and the count 32, the or is an addition and the id is non-negative. */
  lemma ComposeIdValue(timestamp: int, count: int)
    requires 0 <= timestamp < 0x8000_0000 && 0 <= count < COUNT_SPAN
    ensures ComposeId(timestamp, count) == timestamp * COUNT_SPAN + count
  {
    Pow2Of32();
    ShiftLeftExact(timestamp, COUNT_BITS);
    BitOrDisjoint(timestamp, count, COUNT_BITS);
  }

  /** `id >> 32` gives the timestamp back and `id & 0xFFFFFFFF` the count. */
  lemma ComposeIdParts(timestamp: int, count: int)
    requires 0 <= timestamp < 0x8000_0000 && 0 <= count < COUNT_SPAN
    ensures 0 <= ComposeId(timestamp, count)
    ensures ComposeId(timestamp, count) / COUNT_SPAN == timestamp
    ensures ComposeId(timestamp, count) % COUNT_SPAN == count
  {
    ComposeIdValue(timestamp, count);
  }

  /** Ids order first by timestamp, then by count. */
  lemma ComposeIdOrder(t1: int, c1: int, t2: int, c2: int)
    requires 0 <= t1 < 0x8000_0000 && 0 <= c1 < COUNT_SPAN
    requires 0 <= t2 < 0x8000_0000 && 0 <= c2 < COUNT_SPAN
    ensures ComposeId(t1, c1) < ComposeId(t2, c2) <==> t1 < t2 || (t1 == t2 && c1 < c2)
  {
    ComposeIdValue(t1, c1);
    ComposeIdValue(t2, c2);
  }

  /**
    The count is not masked: a count past 32 bits spills into the timestamp,
    and at an even timestamp the id equals the first id of the next second.
  */
  lemma ComposeIdCountSpills(timestamp: int)
    requires 0 <= timestamp < 0x7FFF_FFFF && timestamp % 2 == 0
    ensures ComposeId(timestamp, COUNT_SPAN + 1) == ComposeId(timestamp + 1, 1)
  {
    Pow2Of32();
    ShiftLeftExact(timestamp, COUNT_BITS);
    OrNatEvenOne(timestamp);
    assert (timestamp + 1) * COUNT_SPAN + 1 <= LONG_MAX;
    BitOrShifted(timestamp, 1, 1, COUNT_BITS);
    assert 1 * Pow2(COUNT_BITS) + 1 == COUNT_SPAN + 1;
    ComposeIdValue(timestamp + 1, 1);
  }

  /** From 2^31 seconds after the start (in the year 2089) the timestamp reaches the sign bit and ids turn negative. */
  lemma ComposeIdNegativeFrom2089(timestamp: int, count: int)
    requires 0x8000_0000 <= timestamp < 0x1_0000_0000 && 0 <= count < COUNT_SPAN
    ensures ComposeId(timestamp, count) < 0
  {
    Pow2Of32();
    var s := timestamp * COUNT_SPAN;
    assert 0x8000_0000 * COUNT_SPAN <= s < COUNT_SPAN * COUNT_SPAN;
    assert Bits(timestamp) == timestamp;
    assert Bits(ShiftLeft(timestamp, COUNT_BITS)) == s;
    OrNatShifted(timestamp, 0, count, COUNT_BITS);
    OrNatZero(timestamp);
    assert OrNat(s, 0 * COUNT_SPAN + count) == s + count;
  }

  // ---------------------------------------------------------------------
  // LocalDateTime in UTC: the clock reading nextId takes

  datatype DateTime = DateTime(year: int, month: int, day: int, hour: int, minute: int, second: int)

  predicate IsLeapYear(y: int) { y % 4 == 0 && (y % 100 != 0 || y % 400 == 0) }

  function DaysInMonth(y: int, m: int): int
    requires 1 <= m <= 12
  {
    if m == 2 then (if IsLeapYear(y) then 29 else 28)
    else if m == 4 || m == 6 || m == 9 || m == 11 then 30
    else 31
  }

  function YearLength(y: int): int { if IsLeapYear(y) then 366 else 365 }

  /** A date-time of the proleptic Gregorian calendar with a four-digit year. */
  predicate ValidDateTime(t: DateTime)
  {
    && 1 <= t.year <= 9999 && 1 <= t.month <= 12 && 1 <= t.day <= DaysInMonth(t.year, t.month)
    && 0 <= t.hour < 24 && 0 <= t.minute < 60 && 0 <= t.second < 60
  }

  /** Strictly earlier: the fields compared from the year down to the second. */
  predicate Before(a: DateTime, b: DateTime)
  {
    || a.year < b.year
    || (a.year == b.year && a.month < b.month)
    || (a.year == b.year && a.month == b.month && a.day < b.day)
    || (a.year == b.year && a.month == b.month && a.day == b.day && a.hour < b.hour)
    || (a.year == b.year && a.month == b.month && a.day == b.day && a.hour == b.hour && a.minute < b.minute)
    || (a.year == b.year && a.month == b.month && a.day == b.day && a.hour == b.hour && a.minute == b.minute
        && a.second < b.second)
  }

  predicate SameDay(a: DateTime, b: DateTime) { a.year == b.year && a.month == b.month && a.day == b.day }

  /** Days from 0001-01-01 to the first day of year y. */
  function DaysBeforeYear(y: int): int
    requires y >= 1
  {
    var p := y - 1;
    365 * p + p / 4 - p / 100 + p / 400
  }

  /** Days from the first of the year to the first of month m (m == 13: the whole year). */
  function DaysBeforeMonth(y: int, m: int): (days: int)
    requires 1 <= m <= 13
    ensures 0 <= days
  {
    if m == 1 then 0 else DaysBeforeMonth(y, m - 1) + DaysInMonth(y, m - 1)
  }

  /** LocalDateTime.toEpochSecond(ZoneOffset.UTC). */
  function EpochSecond(t: DateTime): int
    requires ValidDateTime(t)
  {
    var epochDay := DaysBeforeYear(t.year) + DaysBeforeMonth(t.year, t.month) + t.day - 1 - 719162;
    epochDay * 86400 + t.hour * 3600 + t.minute * 60 + t.second
  }

  lemma BeginTimestampIs2021()
    ensures EpochSecond(DateTime(2021, 1, 1, 0, 0, 0)) == BEGIN_TIMESTAMP
  {}

  lemma DaysBeforeYearStep(y: int)
    requires y >= 1
    ensures DaysBeforeYear(y + 1) == DaysBeforeYear(y) + YearLength(y)
  {
    QuotientSteps(y);
  }

  /** Stepping y by one moves y / 4 by one exactly at a multiple of 4; likewise for 100 and 400. */
  lemma QuotientSteps(y: int)
    ensures y / 4 == (y - 1) / 4 + (if y % 4 == 0 then 1 else 0)
    ensures y / 100 == (y - 1) / 100 + (if y % 100 == 0 then 1 else 0)
    ensures y / 400 == (y - 1) / 400 + (if y % 400 == 0 then 1 else 0)
  {}

  lemma {:induction false} DaysBeforeYearIncreasing(y1: int, y2: int)
    requires 1 <= y1 < y2
    ensures DaysBeforeYear(y1) + YearLength(y1) <= DaysBeforeYear(y2)
    decreases y2 - y1
  {
    DaysBeforeYearStep(y1);
    if y1 + 1 < y2 {
      DaysBeforeYearIncreasing(y1 + 1, y2);
    }
  }

  lemma {:induction false} DaysBeforeMonthIncreasing(y: int, m1: int, m2: int)
    requires 1 <= m1 < m2 <= 13
    ensures DaysBeforeMonth(y, m1) + DaysInMonth(y, m1) <= DaysBeforeMonth(y, m2)
    decreases m2 - m1
  {
    if m1 + 1 < m2 {
      DaysBeforeMonthIncreasing(y, m1 + 1, m2);
    }
  }

  lemma YearOfMonths(y: int)
    ensures DaysBeforeMonth(y, 13) == YearLength(y)
  {
    var feb := DaysInMonth(y, 2);
    assert DaysBeforeMonth(y, 2) == 31;
    assert DaysBeforeMonth(y, 3) == 31 + feb;
    assert DaysBeforeMonth(y, 4) == 62 + feb;
    assert DaysBeforeMonth(y, 5) == 92 + feb;
    assert DaysBeforeMonth(y, 6) == 123 + feb;
    assert DaysBeforeMonth(y, 7) == 153 + feb;
    assert DaysBeforeMonth(y, 8) == 184 + feb;
    assert DaysBeforeMonth(y, 9) == 215 + feb;
    assert DaysBeforeMonth(y, 10) == 245 + feb;
    assert DaysBeforeMonth(y, 11) == 276 + feb;
    assert DaysBeforeMonth(y, 12) == 306 + feb;
    assert DaysBeforeMonth(y, 13) == 337 + feb;
  }

  /** The day-of-year index of a valid date is below the year's length. */
  lemma DayOfYearBound(t: DateTime)
    requires ValidDateTime(t)
    ensures DaysBeforeMonth(t.year, t.month) + t.day - 1 < YearLength(t.year)
  {
    YearOfMonths(t.year);
    if t.month < 12 {
      DaysBeforeMonthIncreasing(t.year, t.month, 13);
    }
  }

  /** A later clock reading has a larger epoch second. */
  lemma EpochSecondIncreasing(a: DateTime, b: DateTime)
    requires ValidDateTime(a) && ValidDateTime(b) && Before(a, b)
    ensures EpochSecond(a) < EpochSecond(b)
  {
    var da := DaysBeforeYear(a.year) + DaysBeforeMonth(a.year, a.month) + a.day;
    var db := DaysBeforeYear(b.year) + DaysBeforeMonth(b.year, b.month) + b.day;
    if a.year < b.year {
      DayOfYearBound(a);
      DaysBeforeYearIncreasing(a.year, b.year);
      assert da < db;
    } else if a.year == b.year && a.month < b.month {
      DaysBeforeMonthIncreasing(a.year, a.month, b.month);
      assert da < db;
    }
  }

  // ---------------------------------------------------------------------
  // The per-day counter key

  /** The date formatted with the pattern "yyyy:MM:dd". */
  function DayStamp(t: DateTime): (s: string)
    requires ValidDateTime(t)
    ensures |s| == 10
  {
    Pad(t.year, 4) + ":" + Pad(t.month, 2) + ":" + Pad(t.day, 2)
  }

  function CounterKey(keyPrefix: string, t: DateTime): string
    requires ValidDateTime(t)
  {
    "icr:" + keyPrefix + ":" + DayStamp(t)
  }

  lemma DayStampInjective(a: DateTime, b: DateTime)
    requires ValidDateTime(a) && ValidDateTime(b)
    ensures DayStamp(a) == DayStamp(b) <==> SameDay(a, b)
  {
    if DayStamp(a) == DayStamp(b) {
      var sa, sb := DayStamp(a), DayStamp(b);
      assert sa[..4] == Pad(a.year, 4) && sb[..4] == Pad(b.year, 4);
      assert sa[5..7] == Pad(a.month, 2) && sb[5..7] == Pad(b.month, 2);
      assert sa[8..] == Pad(a.day, 2) && sb[8..] == Pad(b.day, 2);
      PadInjective(a.year, b.year, 4);
      PadInjective(a.month, b.month, 2);
      PadInjective(a.day, b.day, 2);
    }
  }

  /** Each prefix and calendar day has a counter of its own. */
  lemma CounterKeyInjective(p1: string, a: DateTime, p2: string, b: DateTime)
    requires ValidDateTime(a) && ValidDateTime(b)
    ensures CounterKey(p1, a) == CounterKey(p2, b) <==> p1 == p2 && SameDay(a, b)
  {
    DayStampInjective(a, b);
    var k1, k2 := CounterKey(p1, a), CounterKey(p2, b);
    if k1 == k2 {
      assert |p1| == |p2|;
      assert k1[|k1| - 10..] == DayStamp(a) && k2[|k2| - 10..] == DayStamp(b);
      assert k1[4..4 + |p1|] == p1 && k2[4..4 + |p2|] == p2;
    }
  }

  // ---------------------------------------------------------------------
  // nextId

  /** Seconds since 2021-01-01T00:00:00 UTC. */
  function Timestamp(now: DateTime): int
    requires ValidDateTime(now)
  {
    EpochSecond(now) - BEGIN_TIMESTAMP
  }

  /** One nextId call at clock reading `now`: INCR the day's counter, then compose the id. */
  function NextIdStep(kv: Keyspace, keyPrefix: string, now: DateTime): (c: Cmd<int>)
    requires ValidDateTime(now)
    ensures c.reply.Ok? ==> IsLong(c.reply.value)
    ensures c.reply.Err? ==> c.after == kv
    ensures AgreeOutside(kv, c.after, {CounterKey(keyPrefix, now)})
  {
    var incr := IncrCmd(kv, CounterKey(keyPrefix, now));
    match incr.reply
    case Err(f) => Cmd(Err(f), kv)
    case Ok(count) => Cmd(Ok(ComposeId(Timestamp(now), count)), incr.after)
  }

  /** The key is absent or holds a canonical count that one more increment keeps below `limit`. */
  predicate CounterBelow(kv: Keyspace, key: string, limit: int)
  {
    key in kv ==>
      && kv[key].value.Str?
      && var n := ParseLong(kv[key].value.s);
      && n.Some? && LongText(n.value) == kv[key].value.s && 0 <= n.value && n.value + 1 < limit
  }

  /** The count INCR produces: one more than the stored count, or 1 for a new day. */
  function NextCount(kv: Keyspace, key: string): int
    requires CounterBelow(kv, key, COUNT_SPAN)
  {
    if key in kv then ParseLong(kv[key].value.s).value + 1 else 1
  }

  /**
    While the counter stays in its 32 bits, the id carries the timestamp above
    and the day's next count below, and the store now holds that count.
  */
  lemma NextIdLayout(kv: Keyspace, keyPrefix: string, now: DateTime)
    requires ValidDateTime(now) && 0 <= Timestamp(now) < 0x8000_0000
    requires CounterBelow(kv, CounterKey(keyPrefix, now), COUNT_SPAN)
    ensures var c := NextIdStep(kv, keyPrefix, now);
      var n := NextCount(kv, CounterKey(keyPrefix, now));
      && 1 <= n < COUNT_SPAN
      && c.reply == Ok(Timestamp(now) * COUNT_SPAN + n)
      && CounterKey(keyPrefix, now) in c.after
      && c.after[CounterKey(keyPrefix, now)].value == Str(LongText(n))
  {
    var key := CounterKey(keyPrefix, now);
    if key in kv {
      ParseLongText(ParseLong(kv[key].value.s).value);
    }
    ComposeIdValue(Timestamp(now), NextCount(kv, key));
  }

  /** `id >> 32` of an issued id is the clock reading's timestamp and `id & 0xFFFFFFFF` the day's count. */
  lemma NextIdParts(kv: Keyspace, keyPrefix: string, now: DateTime)
    requires ValidDateTime(now) && 0 <= Timestamp(now) < 0x8000_0000
    requires CounterBelow(kv, CounterKey(keyPrefix, now), COUNT_SPAN)
    ensures var c := NextIdStep(kv, keyPrefix, now);
      && c.reply.Ok? && 0 <= c.reply.value
      && c.reply.value / COUNT_SPAN == Timestamp(now)
      && c.reply.value % COUNT_SPAN == NextCount(kv, CounterKey(keyPrefix, now))
  {
    NextIdLayout(kv, keyPrefix, now);
  }

  /**
    Two calls for the same prefix, the second at the same or a later clock
    reading, issue strictly increasing ids while the counters stay in 32 bits.
  */
  lemma NextIdIncreasing(kv: Keyspace, keyPrefix: string, t1: DateTime, t2: DateTime)
    requires ValidDateTime(t1) && ValidDateTime(t2) && (t1 == t2 || Before(t1, t2))
    requires 0 <= Timestamp(t1) && Timestamp(t2) < 0x8000_0000
    requires CounterBelow(kv, CounterKey(keyPrefix, t1), COUNT_SPAN)
    requires CounterBelow(NextIdStep(kv, keyPrefix, t1).after, CounterKey(keyPrefix, t2), COUNT_SPAN)
    ensures var c1 := NextIdStep(kv, keyPrefix, t1);
      var c2 := NextIdStep(c1.after, keyPrefix, t2);
      c1.reply.Ok? && c2.reply.Ok? && c1.reply.value < c2.reply.value
  {
    if t1 != t2 {
      EpochSecondIncreasing(t1, t2);
    }
    var k1, k2 := CounterKey(keyPrefix, t1), CounterKey(keyPrefix, t2);
    var after1 := NextIdStep(kv, keyPrefix, t1).after;
    NextIdLayout(kv, keyPrefix, t1);
    NextIdLayout(after1, keyPrefix, t2);
    var n1, n2 := NextCount(kv, k1), NextCount(after1, k2);
    if SameDay(t1, t2) {
      assert k1 == k2;
      ParseLongText(n1);
      assert n2 == n1 + 1;
    }
  }

  /** The id generator bean: it holds the shared store template. */
  class RedisIdWorker {
    const template: Template

    constructor (template: Template)
      ensures this.template == template
    {
      this.template := template;
    }

    /** nextId(keyPrefix) at clock reading `now`; a failed INCR surfaces as the store's error. */
    method NextId(keyPrefix: string, now: DateTime) returns (r: Result<int>)
      requires ValidDateTime(now)
      modifies template
      ensures Cmd(r, template.kv) == NextIdStep(old(template.kv), keyPrefix, now)
    {
      var timestamp := Timestamp(now);
      var count := template.Increment(CounterKey(keyPrefix, now));
      match count
      case Err(f) => r := Err(f);
      case Ok(n) => r := Ok(ComposeId(timestamp, n));
    }
  }
}
