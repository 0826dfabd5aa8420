/**
 * Token-usage statistics (backend/internal/handlers/token_stats.go). A
 * statistics period runs from 15:00 Beijing time to 15:00 the next day; the
 * dashboard shows the period's totals and 17 twenty-minute slots centred on
 * the current one.
 *
 * Time is an integer count of nanoseconds on the Beijing wall clock (UTC+8,
 * which has no daylight saving), counted from a local midnight, so the time of
 * day of `t` is `t % DayNs`. The `token_usage` table is a sequence of records
 * whose `createdAt` is on the same scale.
 */
module TokenStats {
  const MinuteNs: int := 60_000_000_000
  const HourNs: int := 3_600_000_000_000
  const DayNs: int := 86_400_000_000_000
  /** 15:00 as an offset into the day. */
  const ResetOffset: int := 54_000_000_000_000
  /** Twenty minutes, the width of one slot. */
  const SlotNs: int := 1_200_000_000_000
  const SlotsPerDay: int := 72

  // ---------------------------------------------------------------------------
  // Calendar arithmetic

  /** Midnight of the day `t` falls in. */
  function DayStart(t: int): (d: int)
    ensures d <= t < d + DayNs
    ensures d % DayNs == 0
  {
    t - t % DayNs
  }

  /** `time.Date(y, m, d, 15, 0, 0, 0, beijing)` for the day of `t`. */
  function Today3PM(t: int): (r: int)
    ensures r % DayNs == ResetOffset
    ensures r - ResetOffset <= t < r - ResetOffset + DayNs
  {
    DayStart(t) + ResetOffset
  }

  /** A 15:00 instant. */
  predicate IsResetTime(t: int) {
    t % DayNs == ResetOffset
  }

  /**
   * GetCurrentPeriodStart: today's 15:00 unless `now` is strictly before it,
   * in which case yesterday's.
   */
  function PeriodStart(now: int): (p: int)
    ensures IsResetTime(p)
    ensures p <= now < p + DayNs
  {
    var t := Today3PM(now);
    if now < t then t - DayNs else t
  }

  /** Two 15:00 instants less than a day apart are the same instant. */
  lemma ResetTimesApart(p: int, q: int)
    requires IsResetTime(p) && IsResetTime(q) && p <= q < p + DayNs
    ensures p == q
  {
    assert p == DayNs * (p / DayNs) + ResetOffset;
    assert q == DayNs * (q / DayNs) + ResetOffset;
  }

  /** The period start is the only 15:00 in the day that ends at `now`. */
  lemma PeriodStartUnique(now: int, q: int)
    requires IsResetTime(q) && q <= now < q + DayNs
    ensures q == PeriodStart(now)
  {
    var p := PeriodStart(now);
    if p <= q {
      ResetTimesApart(p, q);
    } else {
      ResetTimesApart(q, p);
    }
  }

  /**
   * The reported next reset: today's 15:00 unless `now` is strictly after it,
   * in which case tomorrow's.
   */
  function NextReset(now: int): (r: int)
    ensures IsResetTime(r)
    ensures now <= r < now + DayNs
  {
    var t := Today3PM(now);
    if now > t then t + DayNs else t
  }

  /**
   * The next reset closes the current period, except at exactly 15:00: there
   * the new period has just begun and the reported next reset is `now` itself.
   */
  lemma NextResetEndsPeriod(now: int)
    ensures !IsResetTime(now) ==> NextReset(now) == PeriodStart(now) + DayNs
    ensures IsResetTime(now) ==> NextReset(now) == now == PeriodStart(now)
  {
    var t := Today3PM(now);
    if IsResetTime(now) {
      ResetTimesApart(t - ResetOffset + ResetOffset, now);
    }
  }

  /** The hour and minute on the Beijing clock. */
  function HourOf(t: int): (h: int)
    ensures 0 <= h < 24
  {
    (t % DayNs) / HourNs
  }

  function MinuteOf(t: int): (m: int)
    ensures 0 <= m < 60
  {
    (t % HourNs) / MinuteNs
  }

  /** `currentHour*3 + currentMinute/20`: which twenty minutes of the day. */
  function CurrentSlot(hour: int, minute: int): (s: int)
    requires 0 <= hour < 24 && 0 <= minute < 60
    ensures 0 <= s < SlotsPerDay
    ensures s / 3 == hour && s % 3 == minute / 20
  {
    hour * 3 + minute / 20
  }

  function SlotAt(t: int): (s: int)
    ensures 0 <= s < SlotsPerDay
  {
    CurrentSlot(HourOf(t), MinuteOf(t))
  }

  /** The slot of `t` is the number of whole twenty-minute spans since midnight. */
  lemma SlotAtCountsSpans(t: int)
    ensures SlotAt(t) == (t % DayNs) / SlotNs
  {
    var d := t % DayNs;
    var h := d / HourNs;
    var rest := d - h * HourNs;
    assert t % HourNs == rest by {
      assert t == DayNs * (t / DayNs) + d;
      assert t == HourNs * (24 * (t / DayNs) + h) + rest;
    }
    assert (t % HourNs) / MinuteNs / 20 == rest / SlotNs;
  }

  /** The ±72 correction of the window loop. */
  function WrapSlot(s: int): (w: int)
    requires -SlotsPerDay <= s < 2 * SlotsPerDay
    ensures 0 <= w < SlotsPerDay
    ensures w == s % SlotsPerDay
  {
    if s < 0 then s + SlotsPerDay else if s >= SlotsPerDay then s - SlotsPerDay else s
  }

  /** `hour*100 + minute`: the slot's start as HHMM. */
  function HHMM(slot: int): (r: int)
    requires 0 <= slot < SlotsPerDay
    ensures 0 <= r / 100 < 24
    ensures r % 100 == 0 || r % 100 == 20 || r % 100 == 40
  {
    (slot / 3) * 100 + (slot % 3) * 20
  }

  /** HHMM labels decode back to their slot, so no two slots share a label. */
  lemma HHMMRoundTrip(slot: int)
    requires 0 <= slot < SlotsPerDay
    ensures (HHMM(slot) / 100) * 3 + (HHMM(slot) % 100) / 20 == slot
  {
  }

  // ---------------------------------------------------------------------------
  // The usage table

  datatype UsageRecord = UsageRecord(modelName: string, providerName: string, promptTokens: int,
                                     completionTokens: int, totalTokens: int, createdAt: int)

  /** The rows of the current period: `created_at >= periodStart`. */
  function Since(records: seq<UsageRecord>, start: int): (r: seq<UsageRecord>)
    ensures forall i :: 0 <= i < |r| ==> r[i].createdAt >= start
    ensures forall x :: x in r ==> x in records
    ensures |r| <= |records|
    decreases |records|
  {
    if records == [] then []
    else
      var last := records[|records| - 1];
      Since(records[..|records| - 1], start) + (if last.createdAt >= start then [last] else [])
  }

  /** The rows before the current period: `created_at < periodStart`. */
  function Before(records: seq<UsageRecord>, start: int): (r: seq<UsageRecord>)
    ensures forall i :: 0 <= i < |r| ==> r[i].createdAt < start
    ensures |r| <= |records|
    decreases |records|
  {
    if records == [] then []
    else
      var last := records[|records| - 1];
      Before(records[..|records| - 1], start) + (if last.createdAt < start then [last] else [])
  }

  /** The two DELETEs split the table: every row goes to exactly one side. */
  lemma {:induction false} SinceBeforePartition(records: seq<UsageRecord>, start: int)
    ensures multiset(Since(records, start)) + multiset(Before(records, start)) == multiset(records)
    decreases |records|
  {
    if records != [] {
      var init := records[..|records| - 1];
      var last := records[|records| - 1];
      SinceBeforePartition(init, start);
      assert records == init + [last];
      SinceSnoc(init, start, last);
      BeforeSnoc(init, start, last);
    }
  }

  /** A row is kept by the period's DELETE exactly when it is of the period. */
  lemma {:induction false} SinceMembers(records: seq<UsageRecord>, start: int, x: UsageRecord)
    ensures x in Since(records, start) <==> x in records && x.createdAt >= start
    decreases |records|
  {
    if records != [] {
      var init := records[..|records| - 1];
      SinceMembers(init, start, x);
      assert records == init + [records[|records| - 1]];
    }
  }

  /** A row is kept by the reset's DELETE exactly when it precedes the period. */
  lemma {:induction false} BeforeMembers(records: seq<UsageRecord>, start: int, x: UsageRecord)
    ensures x in Before(records, start) <==> x in records && x.createdAt < start
    decreases |records|
  {
    if records != [] {
      var init := records[..|records| - 1];
      BeforeMembers(init, start, x);
      assert records == init + [records[|records| - 1]];
    }
  }

  /** The period's sums, as `COALESCE(SUM(...), 0)`. */
  datatype Totals = Totals(totalTokens: int, promptTokens: int, completionTokens: int)

  function Sum(records: seq<UsageRecord>): (t: Totals)
    decreases |records|
  {
    if records == [] then Totals(0, 0, 0)
    else
      var rest := Sum(records[..|records| - 1]);
      var last := records[|records| - 1];
      Totals(rest.totalTokens + last.totalTokens, rest.promptTokens + last.promptTokens,
             rest.completionTokens + last.completionTokens)
  }

  function PeriodTotals(records: seq<UsageRecord>, start: int): (t: Totals)
    ensures (forall i :: 0 <= i < |records| ==> records[i].createdAt < start) ==> t == Totals(0, 0, 0)
  {
    var period := Since(records, start);
    assert period != [] ==> period[0] in records && period[0].createdAt >= start;
    Sum(period)
  }

  /** After the manual reset nothing of the current period is left to count. */
  lemma {:induction false} ResetClearsPeriod(records: seq<UsageRecord>, start: int)
    ensures Since(Before(records, start), start) == []
    ensures PeriodTotals(Before(records, start), start) == Totals(0, 0, 0)
  {
    SinceAllBefore(Before(records, start), start);
  }

  /** A table whose rows all precede `start` has nothing since `start`. */
  lemma {:induction false} SinceAllBefore(records: seq<UsageRecord>, start: int)
    requires forall i :: 0 <= i < |records| ==> records[i].createdAt < start
    ensures Since(records, start) == []
    decreases |records|
  {
    if records != [] {
      SinceAllBefore(records[..|records| - 1], start);
    }
  }

  /** Cleaning old rows leaves the current period's totals as they were. */
  lemma {:induction false} CleanKeepsPeriod(records: seq<UsageRecord>, start: int)
    ensures Since(Since(records, start), start) == Since(records, start)
    ensures PeriodTotals(Since(records, start), start) == PeriodTotals(records, start)
    decreases |records|
  {
    if records != [] {
      var init := records[..|records| - 1];
      CleanKeepsPeriod(init, start);
      var last := records[|records| - 1];
      var s := Since(records, start);
      var tail := if last.createdAt >= start then [last] else [];
      assert s == Since(init, start) + tail;
      if tail != [] {
        assert s[..|s| - 1] == Since(init, start);
      } else {
        assert s == Since(init, start);
      }
    }
  }

  /** A row recorded during the period adds exactly its tokens to the totals. */
  lemma RecordAddsToPeriod(records: seq<UsageRecord>, start: int, r: UsageRecord)
    requires r.createdAt >= start
    ensures var before := PeriodTotals(records, start);
      PeriodTotals(records + [r], start) ==
        Totals(before.totalTokens + r.totalTokens, before.promptTokens + r.promptTokens,
               before.completionTokens + r.completionTokens)
  {
    SinceSnoc(records, start, r);
    SumSnoc(Since(records, start), r);
  }

  lemma SinceSnoc(records: seq<UsageRecord>, start: int, r: UsageRecord)
    ensures Since(records + [r], start) == Since(records, start) + (if r.createdAt >= start then [r] else [])
  {
    var all := records + [r];
    assert all[..|all| - 1] == records;
  }

  lemma BeforeSnoc(records: seq<UsageRecord>, start: int, r: UsageRecord)
    ensures Before(records + [r], start) == Before(records, start) + (if r.createdAt < start then [r] else [])
  {
    var all := records + [r];
    assert all[..|all| - 1] == records;
  }

  lemma SumSnoc(rows: seq<UsageRecord>, r: UsageRecord)
    ensures var before := Sum(rows);
      Sum(rows + [r]) == Totals(before.totalTokens + r.totalTokens, before.promptTokens + r.promptTokens,
                                before.completionTokens + r.completionTokens)
  {
    var all := rows + [r];
    assert all[..|all| - 1] == rows;
  }

  // ---------------------------------------------------------------------------
  // Per-slot grouping and the 17-slot window

  /** One row of the `GROUP BY hour, minute_slot` query. */
  datatype SlotData = SlotData(tokens: int, requests: int)

  /** Tokens and request count of the period's rows that fall in `slot`. */
  function SlotUsage(records: seq<UsageRecord>, start: int, slot: int): (d: SlotData)
    ensures d.requests >= 0
    ensures d.requests == 0 ==> d.tokens == 0
    decreases |records|
  {
    if records == [] then SlotData(0, 0)
    else
      var rest := SlotUsage(records[..|records| - 1], start, slot);
      var last := records[|records| - 1];
      if last.createdAt >= start && SlotAt(last.createdAt) == slot
      then SlotData(rest.tokens + last.totalTokens, rest.requests + 1)
      else rest
  }

  /** A row of the period is counted in its own slot. */
  lemma {:induction false} SlotUsageCounts(records: seq<UsageRecord>, start: int, i: int)
    requires 0 <= i < |records| && records[i].createdAt >= start
    ensures SlotUsage(records, start, SlotAt(records[i].createdAt)).requests >= 1
    decreases |records|
  {
    if i < |records| - 1 {
      var init := records[..|records| - 1];
      SlotUsageCounts(init, start, i);
    }
  }

  /** The query's rows, slots in ascending order, only slots with rows. */
  datatype SlotRow = SlotRow(hour: int, minuteSlot: int, data: SlotData)

  function SlotRowsFrom(records: seq<UsageRecord>, start: int, slot: int): (rows: seq<SlotRow>)
    requires 0 <= slot <= SlotsPerDay
    ensures forall i :: 0 <= i < |rows| ==>
      0 <= rows[i].hour < 24 && 0 <= rows[i].minuteSlot < 3 &&
      slot <= RowSlot(rows[i]) < SlotsPerDay
    decreases SlotsPerDay - slot
  {
    if slot == SlotsPerDay then []
    else
      var d := SlotUsage(records, start, slot);
      (if d.requests > 0 then [SlotRow(slot / 3, slot % 3, d)] else []) + SlotRowsFrom(records, start, slot + 1)
  }

  /** The `slotMap` the cursor loop fills: later rows for the same key win. */
  function SlotMapOf(rows: seq<SlotRow>): map<int, SlotData>
    decreases |rows|
  {
    if rows == [] then map[]
    else
      var last := rows[|rows| - 1];
      SlotMapOf(rows[..|rows| - 1])[RowSlot(last) := last.data]
  }

  /** The cursor loop over the grouped rows. */
  method BuildSlotMap(rows: seq<SlotRow>) returns (slotMap: map<int, SlotData>)
    ensures slotMap == SlotMapOf(rows)
  {
    slotMap := map[];
    var i := 0;
    while i < |rows|
      invariant 0 <= i <= |rows|
      invariant slotMap == SlotMapOf(rows[..i])
    {
      assert rows[..i + 1][..i] == rows[..i];
      slotMap := slotMap[RowSlot(rows[i]) := rows[i].data];
      i := i + 1;
    }
    assert rows[..i] == rows;
  }

  /** The grouped rows give every slot of the day exactly its usage (absent slots have none). */
  lemma {:induction false} SlotMapOfRows(records: seq<UsageRecord>, start: int, from: int, slot: int)
    requires 0 <= from <= SlotsPerDay && from <= slot < SlotsPerDay
    ensures ShowsUsage(SlotMapOf(SlotRowsFrom(records, start, from)), records, start, slot)
    decreases SlotsPerDay - from
  {
    if slot == from {
      SlotMapOwnSlot(records, start, from);
    } else {
      SlotMapOfRows(records, start, from + 1, slot);
      SlotMapLaterSlot(records, start, from, slot);
    }
  }

  /** `m` holds exactly the period's usage of `slot`, and nothing for a slot without rows. */
  ghost predicate ShowsUsage(m: map<int, SlotData>, records: seq<UsageRecord>, start: int, slot: int) {
    (slot in m <==> SlotUsage(records, start, slot).requests > 0) &&
    (slot in m ==> m[slot] == SlotUsage(records, start, slot))
  }

  /** The row for `from` itself, if any, comes first and no later row overrides it. */
  lemma SlotMapOwnSlot(records: seq<UsageRecord>, start: int, from: int)
    requires 0 <= from < SlotsPerDay
    ensures ShowsUsage(SlotMapOf(SlotRowsFrom(records, start, from)), records, start, from)
  {
    var rest := SlotRowsFrom(records, start, from + 1);
    var d := SlotUsage(records, start, from);
    SlotMapAvoids(rest, from);
    if d.requests > 0 {
      var row := SlotRow(from / 3, from % 3, d);
      assert RowSlot(row) == from;
      assert SlotRowsFrom(records, start, from) == [row] + rest;
      SlotMapPrepend(row, rest, from);
    } else {
      assert SlotRowsFrom(records, start, from) == rest;
    }
  }

  /** Rows for later slots are not disturbed by the row for `from`. */
  lemma SlotMapLaterSlot(records: seq<UsageRecord>, start: int, from: int, slot: int)
    requires 0 <= from < slot < SlotsPerDay
    requires ShowsUsage(SlotMapOf(SlotRowsFrom(records, start, from + 1)), records, start, slot)
    ensures ShowsUsage(SlotMapOf(SlotRowsFrom(records, start, from)), records, start, slot)
  {
    var rest := SlotRowsFrom(records, start, from + 1);
    var d := SlotUsage(records, start, from);
    if d.requests > 0 {
      var row := SlotRow(from / 3, from % 3, d);
      assert RowSlot(row) == from;
      assert SlotRowsFrom(records, start, from) == [row] + rest;
      SlotMapPrepend(row, rest, slot);
    } else {
      assert SlotRowsFrom(records, start, from) == rest;
    }
  }

  /** The slot a grouped row stands for. */
  function RowSlot(row: SlotRow): int {
    row.hour * 3 + row.minuteSlot
  }

  /** Rows whose keys all differ from `k` never put `k` in the map. */
  lemma {:induction false} SlotMapAvoids(rows: seq<SlotRow>, k: int)
    requires forall i :: 0 <= i < |rows| ==> RowSlot(rows[i]) > k
    ensures k !in SlotMapOf(rows)
    decreases |rows|
  {
    if rows != [] {
      SlotMapAvoids(rows[..|rows| - 1], k);
    }
  }

  /** Prepending one row: its slot is overridden only by later rows for the same slot. */
  lemma {:induction false} SlotMapPrepend(row: SlotRow, rest: seq<SlotRow>, k: int)
    ensures k in SlotMapOf([row] + rest) <==> k == RowSlot(row) || k in SlotMapOf(rest)
    ensures k in SlotMapOf(rest) ==> SlotMapOf([row] + rest)[k] == SlotMapOf(rest)[k]
    ensures k == RowSlot(row) && k !in SlotMapOf(rest) ==> SlotMapOf([row] + rest)[k] == row.data
    decreases |rest|
  {
    if rest == [] {
      assert [row] + rest == [row];
      assert SlotMapOf([row]) == SlotMapOf([])[RowSlot(row) := row.data];
    } else {
      var init := rest[..|rest| - 1];
      SlotMapPrepend(row, init, k);
      assert ([row] + rest)[..|[row] + rest| - 1] == [row] + init;
    }
  }

  /** One entry of `HourlyStats`; a slot without rows reads as zero tokens and zero requests. */
  datatype HourlyTokenStats = HourlyTokenStats(hour: int, totalTokens: int, requestCount: int)

  function Entry(slotMap: map<int, SlotData>, slot: int): (e: HourlyTokenStats)
    requires 0 <= slot < SlotsPerDay
    ensures e.hour == HHMM(slot)
    ensures slot !in slotMap ==> e.totalTokens == 0 && e.requestCount == 0
    ensures slot in slotMap ==> e.totalTokens == slotMap[slot].tokens && e.requestCount == slotMap[slot].requests
  {
    var d := if slot in slotMap then slotMap[slot] else SlotData(0, 0);
    HourlyTokenStats(HHMM(slot), d.tokens, d.requests)
  }

  /** The slot shown in position `j` of the window: `current - 8 + j`, wrapped into the day. */
  function WindowSlot(current: int, j: int): (s: int)
    requires 0 <= current < SlotsPerDay && 0 <= j < 17
    ensures 0 <= s < SlotsPerDay
    ensures s == (current - 8 + j) % SlotsPerDay
  {
    WrapSlot(current - 8 + j)
  }

  /** The 17 entries, eight before the current slot, the current one, eight after. */
  function Window(slotMap: map<int, SlotData>, current: int): (w: seq<HourlyTokenStats>)
    requires 0 <= current < SlotsPerDay
    ensures |w| == 17
    ensures w[8].hour == HHMM(current)
  {
    seq(17, j requires 0 <= j < 17 => Entry(slotMap, WindowSlot(current, j)))
  }

  /** The window shows 17 different slots, each once. */
  lemma WindowSlotsDistinct(current: int, i: int, j: int)
    requires 0 <= current < SlotsPerDay && 0 <= i < j < 17
    ensures WindowSlot(current, i) != WindowSlot(current, j)
    ensures Window(map[], current)[i].hour != Window(map[], current)[j].hour
  {
    HHMMRoundTrip(WindowSlot(current, i));
    HHMMRoundTrip(WindowSlot(current, j));
  }

  /** The window loop: `s` from `current-8` to `current+8`, wrapped, appended in order. */
  method HourlyWindow(slotMap: map<int, SlotData>, current: int) returns (stats: seq<HourlyTokenStats>)
    requires 0 <= current < SlotsPerDay
    ensures stats == Window(slotMap, current)
  {
    stats := [];
    var s := current - 8;
    while s <= current + 8
      invariant current - 8 <= s <= current + 9
      invariant |stats| == s - (current - 8)
      invariant forall j :: 0 <= j < |stats| ==> stats[j] == Entry(slotMap, WindowSlot(current, j))
    {
      var slot := s;
      if slot < 0 {
        slot := slot + SlotsPerDay;
      } else if slot >= SlotsPerDay {
        slot := slot - SlotsPerDay;
      }
      var data := if slot in slotMap then slotMap[slot] else SlotData(0, 0);
      var hour := slot / 3;
      var minute := (slot % 3) * 20;
      stats := stats + [HourlyTokenStats(hour * 100 + minute, data.tokens, data.requests)];
      s := s + 1;
    }
  }

  /** Each window entry reports the period's usage of the slot it is labelled with. */
  lemma WindowReportsUsage(records: seq<UsageRecord>, start: int, current: int, j: int)
    requires 0 <= current < SlotsPerDay && 0 <= j < 17
    ensures var s := WindowSlot(current, j);
      var u := SlotUsage(records, start, s);
      Window(SlotMapOf(SlotRowsFrom(records, start, 0)), current)[j] == HourlyTokenStats(HHMM(s), u.tokens, u.requests)
  {
    SlotMapOfRows(records, start, 0, WindowSlot(current, j));
  }

  /** Later instants of one day fall in the same or a later slot. */
  lemma SlotAtMonotone(a: int, b: int)
    requires DayStart(a) == DayStart(b) && a <= b
    ensures SlotAt(a) <= SlotAt(b)
  {
    SlotAtCountsSpans(a);
    SlotAtCountsSpans(b);
    assert a % DayNs <= b % DayNs;
  }

  /**
   * Before 15:00 the period began yesterday, so a record of the period that sits
   * in a slot after the current one (the right half of the window) was written
   * yesterday: the window mixes days.
   */
  lemma LaterSlotsAreYesterday(now: int, at: int)
    requires PeriodStart(now) <= at <= now
    requires SlotAt(at) > SlotAt(now)
    ensures at < DayStart(now)
    ensures now < Today3PM(now)
  {
    if at >= DayStart(now) {
      SameDay(DayStart(now), at);
      SlotAtMonotone(at, now);
    }
  }

  /** An instant within a day of a midnight belongs to that midnight's day. */
  lemma SameDay(d: int, t: int)
    requires d % DayNs == 0 && d <= t < d + DayNs
    ensures DayStart(t) == d
  {
    var q := d / DayNs;
    assert d == 86_400_000_000_000 * q;
    var k := t / DayNs - q;
    assert t == 86_400_000_000_000 * (q + k) + t % DayNs;
    assert k == 0;
  }

  /** What GetTodayTokenStats reports (model statistics are not modelled). */
  datatype TodayStats = TodayStats(totals: Totals, hourly: seq<HourlyTokenStats>, nextReset: int)

  /** The `token_usage` table. */
  class UsageTable {
    var records: seq<UsageRecord>

    constructor ()
      ensures records == []
    {
      records := [];
    }

    /** RecordTokenUsage: one row appended, stamped by the database clock `at`. */
    method RecordTokenUsage(modelName: string, providerName: string, promptTokens: int,
                            completionTokens: int, totalTokens: int, at: int)
      modifies this
      ensures records == old(records) + [UsageRecord(modelName, providerName, promptTokens,
                                                      completionTokens, totalTokens, at)]
    {
      records := records + [UsageRecord(modelName, providerName, promptTokens, completionTokens, totalTokens, at)];
    }

    /** GetTodayTokenStats at `now`: the period totals, the slot window and the next reset. */
    method GetTodayTokenStats(now: int) returns (stats: TodayStats)
      ensures stats.totals == PeriodTotals(records, PeriodStart(now))
      ensures stats.hourly == Window(SlotMapOf(SlotRowsFrom(records, PeriodStart(now), 0)), SlotAt(now))
      ensures stats.nextReset == NextReset(now)
    {
      var periodStart := PeriodStart(now);
      var totals := Sum(Since(records, periodStart));
      var currentSlot := CurrentSlot(HourOf(now), MinuteOf(now));
      var slotMap := BuildSlotMap(SlotRowsFrom(records, periodStart, 0));
      var hourly := HourlyWindow(slotMap, currentSlot);
      var next3PM := Today3PM(now);
      if now > next3PM {
        next3PM := next3PM + DayNs;
      }
      stats := TodayStats(totals, hourly, next3PM);
    }

    /** CleanOldTokenRecords: rows before the current period are deleted. */
    method CleanOldTokenRecords(now: int)
      modifies this
      ensures records == Since(old(records), PeriodStart(now))
    {
      records := Since(records, PeriodStart(now));
    }

    /** ResetTodayTokenStats: rows of the current period are deleted. */
    method ResetTodayTokenStats(now: int)
      modifies this
      ensures records == Before(old(records), PeriodStart(now))
    {
      records := Before(records, PeriodStart(now));
    }
  }
}
