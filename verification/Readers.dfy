/** The statistics that read complete days from the day table and today from the log. */
module Readers {
  import opened Common
  import opened DayBucket
  import opened Rollup
  import opened RollupLimits

  datatype Totals = Totals(requests: int, errors: int, tokens: int, cached: int, cost: real, maxMs: nat)

  const NOTHING := Totals(0, 0, 0, 0, 0.0, 0)

  /** Everything is summed but the longest duration, of which the larger stays. */
  function Plus(a: Totals, b: Totals): Totals {
    Totals(a.requests + b.requests, a.errors + b.errors, a.tokens + b.tokens, a.cached + b.cached, a.cost + b.cost,
           if a.maxMs > b.maxMs then a.maxMs else b.maxMs)
  }

  function OfRow(r: Row): Totals {
    Totals(1, if r.failed then 1 else 0, r.prompt + r.completion, r.cached, r.cost, if r.failed then 0 else r.durationMs)
  }

  /** What a query over the log rows adds up to. */
  function TotalsOf(rows: seq<Row>): Totals {
    if rows == [] then NOTHING else Plus(TotalsOf(rows[..|rows| - 1]), OfRow(rows[|rows| - 1]))
  }

  function OfStat(d: DayStat): Totals {
    Totals(d.requests, d.errors, d.prompt + d.completion, d.cached, d.cost, d.maxMs)
  }

  datatype Point = Point(day: int, totals: Totals)

  // ---------- queries ----------

  /** The table's days from `lo` to `hi` in ascending order. */
  function ListDays(usage: map<int, DayStat>, lo: int, hi: int): seq<Point>
    decreases hi - lo
  {
    if lo > hi then []
    else ListDays(usage, lo, hi - 1) + if hi in usage then [Point(hi, OfStat(usage[hi]))] else []
  }

  /** A lower bound of zero or less means none; days are never negative. */
  function FirstDay(fromDay: int): int {
    if fromDay > 0 then fromDay else 0
  }

  function SumOf(points: seq<Point>): Totals {
    if points == [] then NOTHING else Plus(SumOf(points[..|points| - 1]), points[|points| - 1].totals)
  }

  function SumDays(usage: map<int, DayStat>, fromDay: int, toDay: int): Totals {
    SumOf(ListDays(usage, FirstDay(fromDay), toDay))
  }

  function CostSince(rows: seq<Row>, since: int): Totals {
    TotalsOf(Since(rows, since))
  }

  /** The days from `lo` to `hi` that have rows, with what their rows add up to. */
  function Points(offset: int, rows: seq<Row>, lo: int, hi: int): seq<Point>
    decreases hi - lo
  {
    if lo > hi then []
    else
      var day := OfDay(offset, rows, hi);
      Points(offset, rows, lo, hi - 1) + if day == [] then [] else [Point(hi, TotalsOf(day))]
  }

  function LastDay(offset: int, rows: seq<Row>, floor: int): (last: int)
    ensures last >= floor
    ensures forall r :: r in rows ==> DayBucketOf(offset, r.at) <= last
  {
    if rows == [] then floor
    else
      var before, d := LastDay(offset, rows[..|rows| - 1], floor), DayBucketOf(offset, rows[|rows| - 1].at);
      assert rows == rows[..|rows| - 1] + [rows[|rows| - 1]];
      if d > before then d else before
  }

  /** The direct query: all rows since a moment, grouped by day in ascending order. */
  function GroupedByDay(offset: int, rows: seq<Row>, since: int): seq<Point> {
    var kept, first := Since(rows, since), DayBucketOf(offset, since);
    Points(offset, kept, first, LastDay(offset, kept, first - 1))
  }

  // ---------- the readers ----------

  /** Spending of a month: complete days from the table and today from the log, or all from the log when
      the month starts today. */
  function PeriodSpent(s: State, start: int, now: int): Totals {
    var today := Today(s, now);
    if DayStart(s.offset, today) > start
    then Plus(SumDays(s.usage, DayBucketOf(s.offset, start), today - 1), CostSince(s.raw, DayStart(s.offset, today)))
    else CostSince(s.raw, start)
  }

  function ClampDays(days: int): int {
    if days <= 0 then 7 else if days > 400 then 400 else days
  }

  /** Complete days from the table, then today from the log. */
  function DaysThenToday(s: State, fromDay: int, now: int): seq<Point> {
    ListDays(s.usage, FirstDay(fromDay), Today(s, now) - 1) + GroupedByDay(s.offset, s.raw, DayStart(s.offset, Today(s, now)))
  }

  /** The trend of the last days. */
  function TrendByDay(s: State, days: int, now: int): seq<Point> {
    DaysThenToday(s, Today(s, now) - (ClampDays(days) - 1), now)
  }

  function Costs(points: seq<Point>): seq<real> {
    seq(|points|, i requires 0 <= i < |points| => points[i].totals.cost)
  }

  function RecentCompleteDayCosts(s: State, now: int, n: int): seq<real> {
    Costs(ListDays(s.usage, FirstDay(Today(s, now) - n), Today(s, now) - 1))
  }

  function BeforeDay(points: seq<Point>, day: int): seq<Point> {
    if points == [] then []
    else BeforeDay(points[..|points| - 1], day) + if points[|points| - 1].day < day then [points[|points| - 1]] else []
  }

  /** The same without the table: the log from n + 1 days back, without today. */
  function RecentDayCostsFromLog(s: State, now: int, n: int): seq<real> {
    var today := Today(s, now);
    Costs(BeforeDay(GroupedByDay(s.offset, s.raw, DayStart(s.offset, today - (n + 1))), today))
  }

  // ---------- when the tables are up to date ----------

  /** Every day before today is sealed and today's rows are all in the log. */
  ghost predicate UpToDate(s: State, today: int) {
    Inv(s) && SealedTo(s, today - 1) && s.watermark < today
  }

  lemma TickBringsUpToDate(s: State, tick: int)
    requires Inv(s) && tick >= s.clock
    ensures UpToDate(Ticked(s, tick), Today(s, tick))
  {
    TickSeals(s, tick);
    SealedToEarlier(Ticked(s, tick), Today(s, tick), Today(s, tick) - 1);
  }

  /** Rows of today and any allowed cleanup keep it so. */
  lemma StaysUpToDate(s: State, today: int, op: Op)
    requires UpToDate(s, today) && Allowed(s, op)
    requires op.Clean? || (op.Insert? && op.row.at >= DayStart(s.offset, today))
    ensures UpToDate(Step(s, op), today)
  {
    StepKeepsInv(s, op);
    forall day | day <= today - 1
      ensures Sealed(Step(s, op), day)
    {
      assert Sealed(s, day);
      if op.Insert? {
        OfDaySnoc(s.offset, s.all, op.row, day);
      }
    }
  }

  // ---------- adding up ----------

  lemma PlusAssociates(a: Totals, b: Totals, c: Totals)
    ensures Plus(Plus(a, b), c) == Plus(a, Plus(b, c)) && Plus(a, b) == Plus(b, a) && Plus(NOTHING, a) == a
  {
  }

  lemma {:induction false} SummaryAddsUp(rows: seq<Row>)
    ensures OfStat(Summary(rows)) == TotalsOf(rows)
  {
    if rows != [] {
      SummaryAddsUp(rows[..|rows| - 1]);
    }
  }

  lemma TotalsSnoc(rows: seq<Row>, r: Row, counted: bool)
    ensures TotalsOf(rows + if counted then [r] else []) == Plus(TotalsOf(rows), if counted then OfRow(r) else NOTHING)
  {
    if counted {
      assert (rows + [r])[..|rows|] == rows;
    } else {
      assert rows + [] == rows;
      PlusAssociates(TotalsOf(rows), NOTHING, NOTHING);
    }
  }

  lemma {:induction false} SplitAtMidnight(offset: int, rows: seq<Row>, day: int)
    ensures CostSince(rows, DayStart(offset, day)) == Plus(TotalsOf(OfDay(offset, rows, day)), CostSince(rows, DayStart(offset, day + 1)))
  {
    hide *;
    if rows == [] {
      NothingToSplit(offset, day);
    } else {
      var init, r := rows[..|rows| - 1], rows[|rows| - 1];
      SplitAtMidnight(offset, init, day);
      SplitGoesOn(offset, init, r, day);
      SnocIs(init, r, rows);
    }
  }

  lemma NothingToSplit(offset: int, day: int)
    ensures CostSince([], DayStart(offset, day)) == Plus(TotalsOf(OfDay(offset, [], day)), CostSince([], DayStart(offset, day + 1)))
  {
    hide DayStart, InDay;
    assert OfDay(offset, [], day) == [];
    NothingAdds(NOTHING);
  }

  lemma SplitGoesOn(offset: int, init: seq<Row>, r: Row, day: int)
    requires CostSince(init, DayStart(offset, day)) == Plus(TotalsOf(OfDay(offset, init, day)), CostSince(init, DayStart(offset, day + 1)))
    ensures CostSince(init + [r], DayStart(offset, day)) ==
            Plus(TotalsOf(OfDay(offset, init + [r], day)), CostSince(init + [r], DayStart(offset, day + 1)))
  {
    hide *;
    CostSinceSnoc(init, r, DayStart(offset, day));
    OfDaySnoc(offset, init, r, day);
    TotalsSnoc(OfDay(offset, init, day), r, InDay(offset, day, r.at));
    CostSinceSnoc(init, r, DayStart(offset, day + 1));
    TodayOrLater(offset, day, r.at);
    CountedOnce(TotalsOf(OfDay(offset, init, day)), CostSince(init, DayStart(offset, day + 1)), OfRow(r),
                InDay(offset, day, r.at), r.at >= DayStart(offset, day + 1));
  }

  lemma TodayOrLater(offset: int, day: int, t: int)
    ensures t >= DayStart(offset, day) <==> InDay(offset, day, t) || t >= DayStart(offset, day + 1)
    ensures !(InDay(offset, day, t) && t >= DayStart(offset, day + 1))
  {
  }

  lemma CountedOnce(a: Totals, b: Totals, x: Totals, inA: bool, inB: bool)
    requires !(inA && inB)
    ensures Plus(Plus(a, if inA then x else NOTHING), Plus(b, if inB then x else NOTHING)) ==
            Plus(Plus(a, b), if inA || inB then x else NOTHING)
  {
  }

  lemma CostSinceSnoc(rows: seq<Row>, r: Row, since: int)
    ensures CostSince(rows + [r], since) == Plus(CostSince(rows, since), if r.at >= since then OfRow(r) else NOTHING)
  {
    SinceSnoc(rows, r, since);
    TotalsSnoc(Since(rows, since), r, r.at >= since);
  }

  lemma SumSnoc(points: seq<Point>, p: Point)
    ensures SumOf(points + [p]) == Plus(SumOf(points), p.totals)
  {
    assert (points + [p])[..|points|] == points;
  }

  lemma OneMorePoint(offset: int, rows: seq<Row>, lo: int, hi: int)
    requires lo <= hi
    ensures SumOf(Points(offset, rows, lo, hi)) == Plus(SumOf(Points(offset, rows, lo, hi - 1)), TotalsOf(OfDay(offset, rows, hi)))
  {
    hide OfDay, TotalsOf, Plus, SumOf;
    var before, day := Points(offset, rows, lo, hi - 1), OfDay(offset, rows, hi);
    if day != [] {
      SumSnoc(before, Point(hi, TotalsOf(day)));
    } else {
      assert before + [] == before;
      NothingAdds(SumOf(before));
    }
  }

  lemma NothingAdds(a: Totals)
    ensures TotalsOf([]) == NOTHING && Plus(a, NOTHING) == a
  {
  }

  /** The days that have rows and the rows after them add up to all rows since the first of those days. */
  lemma {:induction false} PointsAddUp(offset: int, rows: seq<Row>, lo: int, hi: int)
    requires lo <= hi + 1
    ensures Plus(SumOf(Points(offset, rows, lo, hi)), CostSince(rows, DayStart(offset, hi + 1))) ==
            CostSince(rows, DayStart(offset, lo))
    decreases hi - lo
  {
    if lo == hi + 1 {
      PlusAssociates(CostSince(rows, DayStart(offset, lo)), NOTHING, NOTHING);
    } else {
      hide CostSince, SumOf, Points, Plus, OfDay, TotalsOf;
      PointsAddUp(offset, rows, lo, hi - 1);
      OneMorePoint(offset, rows, lo, hi);
      SplitAtMidnight(offset, rows, hi);
      PlusAssociates(SumOf(Points(offset, rows, lo, hi - 1)), TotalsOf(OfDay(offset, rows, hi)), CostSince(rows, DayStart(offset, hi + 1)));
    }
  }

  /** While the days are sealed, the table's days do. */
  lemma DaysAddUp(s: State, lo: int, hi: int)
    requires SealedTo(s, hi) && lo <= hi + 1
    ensures Plus(SumOf(ListDays(s.usage, lo, hi)), CostSince(s.all, DayStart(s.offset, hi + 1))) ==
            CostSince(s.all, DayStart(s.offset, lo))
  {
    hide SealedTo, CostSince, SumOf, Points, ListDays, Plus;
    PointsFromTable(s, lo, hi);
    PointsAddUp(s.offset, s.all, lo, hi);
  }

  lemma {:induction false} SinceTheBeginning(rows: seq<Row>, a: int)
    requires forall r :: r in rows ==> r.at >= a
    ensures Since(rows, a) == rows
  {
    if rows != [] {
      var init, last := rows[..|rows| - 1], rows[|rows| - 1];
      assert rows == init + [last];
      InSnoc(init, last);
      SinceTheBeginning(init, a);
    }
  }

  lemma MidnightBucket(offset: int, day: int)
    ensures DayBucketOf(offset, DayStart(offset, day)) == day
  {
  }

  /** From day zero on or from any day before it: nothing is older. */
  lemma FromFirstDay(s: State, day: int)
    requires forall r :: r in s.all ==> r.at + s.offset >= 0
    ensures Since(s.all, DayStart(s.offset, FirstDay(day))) == Since(s.all, DayStart(s.offset, day))
  {
    if day <= 0 {
      SinceTheBeginning(s.all, DayStart(s.offset, 0));
      SinceTheBeginning(s.all, DayStart(s.offset, day));
    }
  }

  lemma LogHasEverythingSince(s: State, since: int)
    requires Retained(s) && s.cut <= since
    ensures Since(s.raw, since) == Since(s.all, since)
  {
    SinceSince(s.all, s.cut, since);
  }

  /** While the tables are up to date, the month's spending is that of all rows ever logged since its start. */
  lemma PeriodSpentIsExact(s: State, day: int, now: int)
    requires UpToDate(s, Today(s, now))
    ensures PeriodSpent(s, DayStart(s.offset, day), now) == CostSince(s.all, DayStart(s.offset, day))
  {
    hide Sealed, NoStray, CostSince, SumOf, ListDays, Since;
    var today := Today(s, now);
    MidnightBucket(s.offset, day);
    if DayStart(s.offset, today) > DayStart(s.offset, day) {
      LogHasEverythingSince(s, DayStart(s.offset, today));
      SameSince(s.raw, s.all, DayStart(s.offset, today), DayStart(s.offset, today));
      if FirstDay(day) <= today {
        DaysAddUp(s, FirstDay(day), today - 1);
        FromFirstDay(s, day);
        SameSince(s.all, s.all, DayStart(s.offset, FirstDay(day)), DayStart(s.offset, day));
      }
    } else {
      LogHasEverythingSince(s, DayStart(s.offset, day));
      SameSince(s.raw, s.all, DayStart(s.offset, day), DayStart(s.offset, day));
    }
  }

  lemma SameSince(rows: seq<Row>, rows': seq<Row>, a: int, b: int)
    requires Since(rows, a) == Since(rows', b)
    ensures CostSince(rows, a) == CostSince(rows', b)
  {
  }

  // ---------- the trend ----------

  lemma {:induction false} PointsFromTable(s: State, lo: int, hi: int)
    requires SealedTo(s, hi)
    ensures ListDays(s.usage, lo, hi) == Points(s.offset, s.all, lo, hi)
    decreases hi - lo
  {
    if lo <= hi {
      SealedToEarlier(s, hi, hi - 1);
      PointsFromTable(s, lo, hi - 1);
      SummaryAddsUp(OfDay(s.offset, s.all, hi));
      assert Sealed(s, hi);
    }
  }

  lemma {:induction false} PointsJoin(offset: int, rows: seq<Row>, lo: int, mid: int, hi: int)
    requires lo <= mid + 1 <= hi + 1
    ensures Points(offset, rows, lo, hi) == Points(offset, rows, lo, mid) + Points(offset, rows, mid + 1, hi)
    decreases hi - mid
  {
    hide OfDay, TotalsOf;
    if mid == hi {
      assert Points(offset, rows, mid + 1, hi) == [];
    } else {
      PointsJoin(offset, rows, lo, mid, hi - 1);
    }
  }

  lemma {:induction false} NoPointsAfterLast(offset: int, rows: seq<Row>, lo: int, hi: int)
    requires forall day :: lo <= day <= hi ==> OfDay(offset, rows, day) == []
    ensures Points(offset, rows, lo, hi) == []
    decreases hi - lo
  {
    if lo <= hi {
      NoPointsAfterLast(offset, rows, lo, hi - 1);
    }
  }

  lemma {:induction false} NoneAfterLast(offset: int, rows: seq<Row>, floor: int, day: int)
    requires day > LastDay(offset, rows, floor)
    requires forall r :: r in rows ==> r.at + offset >= 0
    ensures OfDay(offset, rows, day) == []
  {
    if OfDay(offset, rows, day) != [] {
      var r := OfDay(offset, rows, day)[0];
      OfDayHas(offset, rows, day, r);
      BucketAndRangeAreInverse(offset, r.at);
      assert false;
    }
  }

  /** Days past the last one add no points. */
  lemma PointsUpTo(offset: int, rows: seq<Row>, lo: int, hi: int)
    requires LastDay(offset, rows, lo - 1) <= hi
    requires forall r :: r in rows ==> r.at + offset >= 0
    ensures Points(offset, rows, lo, LastDay(offset, rows, lo - 1)) == Points(offset, rows, lo, hi)
  {
    var last := LastDay(offset, rows, lo - 1);
    PointsJoin(offset, rows, lo, last, hi);
    forall day | last + 1 <= day <= hi
      ensures OfDay(offset, rows, day) == []
    {
      NoneAfterLast(offset, rows, lo - 1, day);
    }
    NoPointsAfterLast(offset, rows, last + 1, hi);
  }

  lemma {:induction false} PointsOfSince(offset: int, rows: seq<Row>, cut: int, lo: int, hi: int)
    requires cut <= DayStart(offset, lo)
    ensures Points(offset, Since(rows, cut), lo, hi) == Points(offset, rows, lo, hi)
    decreases hi - lo
  {
    if lo <= hi {
      PointsOfSince(offset, rows, cut, lo, hi - 1);
      OfDaySince(offset, rows, cut, hi);
    }
  }

  lemma {:induction false} LastDayGrows(offset: int, rows: seq<Row>, floor: int, floor': int)
    requires floor <= floor'
    ensures LastDay(offset, rows, floor) <= LastDay(offset, rows, floor')
  {
    if rows != [] {
      LastDayGrows(offset, rows[..|rows| - 1], floor, floor');
    }
  }

  lemma {:induction false} LastDayOfSince(offset: int, rows: seq<Row>, cut: int, floor: int)
    ensures LastDay(offset, Since(rows, cut), floor) <= LastDay(offset, rows, floor)
  {
    if rows != [] {
      var init, r := rows[..|rows| - 1], rows[|rows| - 1];
      LastDayOfSince(offset, init, cut, floor);
      if r.at >= cut {
        assert (Since(init, cut) + [r])[..|Since(init, cut)|] == Since(init, cut);
      }
    }
  }

  /** The grouped query lists the days since `first`, however far the list is taken. */
  lemma GroupedIsPoints(offset: int, rows: seq<Row>, first: int, hi: int)
    requires forall r :: r in rows ==> r.at + offset >= 0
    requires LastDay(offset, rows, first - 1) <= hi
    ensures GroupedByDay(offset, rows, DayStart(offset, first)) == Points(offset, rows, first, hi)
  {
    hide OfDay, Since, LastDay, Points;
    var since := DayStart(offset, first);
    MidnightBucket(offset, first);
    LastDayOfSince(offset, rows, since, first - 1);
    SinceKeeps(rows, since);
    PointsUpTo(offset, Since(rows, since), first, hi);
    PointsOfSince(offset, rows, since, first, hi);
  }

  lemma {:induction false} NothingBeforeDayZero(offset: int, rows: seq<Row>, lo: int, hi: int)
    requires forall r :: r in rows ==> r.at + offset >= 0
    requires hi < 0
    ensures Points(offset, rows, lo, hi) == []
    decreases hi - lo
  {
    if lo <= hi {
      NothingBeforeDayZero(offset, rows, lo, hi - 1);
      if OfDay(offset, rows, hi) != [] {
        OfDayHas(offset, rows, hi, OfDay(offset, rows, hi)[0]);
        assert false;
      }
    }
  }

  /** The days before day zero have no rows, so a bound below it changes nothing. */
  lemma PointsFromFirstDay(offset: int, rows: seq<Row>, lo: int, hi: int)
    requires forall r :: r in rows ==> r.at + offset >= 0
    requires hi >= -1
    ensures Points(offset, rows, FirstDay(lo), hi) == Points(offset, rows, lo, hi)
  {
    if lo < 0 {
      PointsJoin(offset, rows, lo, -1, hi);
      NothingBeforeDayZero(offset, rows, lo, -1);
    }
  }

  /** While the tables are up to date, days and today are what the direct query over all rows ever logged gives. */
  lemma DaysThenTodayIsExact(s: State, first: int, now: int)
    requires UpToDate(s, Today(s, now)) && first <= Today(s, now)
    ensures DaysThenToday(s, first, now) == GroupedByDay(s.offset, s.all, DayStart(s.offset, first))
  {
    hide *;
    NothingInserted(s);
    DaysThenTodayIsStaleExactly(s, [], first, now);
  }

  lemma TrendByDayIsExact(s: State, days: int, now: int)
    requires UpToDate(s, Today(s, now))
    ensures TrendByDay(s, days, now) ==
            GroupedByDay(s.offset, s.all, DayStart(s.offset, Today(s, now) - (ClampDays(days) - 1)))
  {
    hide UpToDate, GroupedByDay, ListDays;
    DaysThenTodayIsExact(s, Today(s, now) - (ClampDays(days) - 1), now);
  }

  /** The log groups the days from `first` on as all rows ever logged do. */
  lemma LogGroupsSince(s: State, first: int, hi: int)
    requires Retained(s) && (forall r :: r in s.all ==> r.at + s.offset >= 0)
    requires s.cut <= DayStart(s.offset, first) && hi == LastDay(s.offset, s.all, first)
    ensures GroupedByDay(s.offset, s.raw, DayStart(s.offset, first)) == Points(s.offset, s.all, first, hi)
  {
    LogHasEverythingSince(s, DayStart(s.offset, first));
    LastDayGrows(s.offset, s.all, first - 1, first);
    GroupedIsPoints(s.offset, s.all, first, hi);
  }

  // ---------- before the first tick of a day ----------

  /** Requests logged after the last tick, one after the other. */
  function InsertedAll(s: State, rows: seq<Row>): State {
    if rows == [] then s else Inserted(InsertedAll(s, rows[..|rows| - 1]), rows[|rows| - 1])
  }

  lemma NothingInserted(s: State)
    ensures InsertedAll(s, []) == s
  {
  }

  lemma {:induction false} InsertedAllIs(s: State, rows: seq<Row>)
    requires Inv(s) && forall r :: r in rows ==> r.at >= DayStart(s.offset, s.watermark + 1)
    ensures var s' := InsertedAll(s, rows);
            Inv(s') && s' == s.(raw := s.raw + rows, all := s.all + rows)
  {
    hide Inv;
    if rows == [] {
      assert s.raw + [] == s.raw && s.all + [] == s.all;
    } else {
      var init, last := rows[..|rows| - 1], rows[|rows| - 1];
      SnocIs(init, last, rows);
      InSnoc(init, last);
      InsertedAllIs(s, init);
      InsertKeepsInv(InsertedAll(s, init), last);
      Associate(s.raw, init, [last]);
      Associate(s.all, init, [last]);
    }
  }

  lemma {:induction false} OfDayConcat(offset: int, a: seq<Row>, b: seq<Row>, day: int)
    ensures OfDay(offset, a + b, day) == OfDay(offset, a, day) + OfDay(offset, b, day)
  {
    if b == [] {
      assert a + [] == a;
    } else {
      var init, last := b[..|b| - 1], b[|b| - 1];
      OfDayConcat(offset, a, init, day);
      OfDaySnoc(offset, a + init, last, day);
      SnocIs(init, last, b);
      Associate(a, init, [last]);
      hide OfDay;
      OfDaySnoc(offset, init, last, day);
      Associate(OfDay(offset, a, day), OfDay(offset, init, day), if InDay(offset, day, last.at) then [last] else []);
    }
  }

  lemma {:induction false} TotalsCountRows(rows: seq<Row>)
    ensures TotalsOf(rows).requests == |rows|
  {
    if rows != [] {
      TotalsCountRows(rows[..|rows| - 1]);
    }
  }

  /** More rows of a day change its point. */
  lemma {:induction false} PointsGrowExactly(offset: int, rows: seq<Row>, more: seq<Row>, lo: int, hi: int)
    ensures Points(offset, rows + more, lo, hi) == Points(offset, rows, lo, hi) <==>
            forall day :: lo <= day <= hi ==> OfDay(offset, more, day) == []
    decreases hi - lo
  {
    if lo <= hi {
      PointsGrowExactly(offset, rows, more, lo, hi - 1);
      var day, day' := OfDay(offset, rows, hi), OfDay(offset, rows + more, hi);
      OfDayConcat(offset, rows, more, hi);
      TotalsCountRows(day);
      TotalsCountRows(day');
      EarlierPoints(offset, rows, lo, hi - 1);
      EarlierPoints(offset, rows + more, lo, hi - 1);
      LastPoints(Points(offset, rows + more, lo, hi - 1), Points(offset, rows, lo, hi - 1), hi, day', day);
    }
  }

  lemma LastPoints(before': seq<Point>, before: seq<Point>, hi: int, day': seq<Row>, day: seq<Row>)
    requires (forall p :: p in before ==> p.day < hi) && forall p :: p in before' ==> p.day < hi
    requires TotalsOf(day).requests == |day| && TotalsOf(day').requests == |day'| && |day| <= |day'| && (|day| == |day'| ==> day == day')
    ensures before' + (if day' == [] then [] else [Point(hi, TotalsOf(day'))]) == before + (if day == [] then [] else [Point(hi, TotalsOf(day))])
            <==> before' == before && day' == day
  {
    hide TotalsOf;
    var last' := if day' == [] then [] else [Point(hi, TotalsOf(day'))];
    var last := if day == [] then [] else [Point(hi, TotalsOf(day))];
    if before' + last' == before + last {
      if day' != [] {
        assert (before' + last')[|before'|] == Point(hi, TotalsOf(day'));
        assert (before + last)[|before + last| - 1].day == hi;
        assert day != [];
      }
      assert |before'| == |before|;
      assert before' == (before' + last')[..|before'|];
      assert before == (before + last)[..|before|];
    }
  }

  lemma NoneOfTheDays(offset: int, rows: seq<Row>, lo: int, hi: int)
    ensures (forall day :: lo <= day <= hi ==> OfDay(offset, rows, day) == []) <==>
            forall r :: r in rows ==> !(DayStart(offset, lo) <= r.at < DayStart(offset, hi + 1))
  {
    hide OfDay;
    if forall day :: lo <= day <= hi ==> OfDay(offset, rows, day) == [] {
      forall r | r in rows
        ensures !(DayStart(offset, lo) <= r.at < DayStart(offset, hi + 1))
      {
        var day := (r.at + offset) / 86400;
        OfDayHas(offset, rows, day, r);
        assert InDay(offset, day, r.at);
        assert r in OfDay(offset, rows, day);
      }
    } else {
      var day :| lo <= day <= hi && OfDay(offset, rows, day) != [];
      var r := OfDay(offset, rows, day)[0];
      OfDayHas(offset, rows, day, r);
      assert DayStart(offset, lo) <= r.at < DayStart(offset, hi + 1);
    }
  }

  lemma Cancel<T>(a: seq<T>, b: seq<T>, c: seq<T>)
    ensures a + c == b + c <==> a == b
  {
    if a + c == b + c {
      assert a == (a + c)[..|a|] && b == (b + c)[..|b|];
    }
  }

  lemma GroupedParts(offset: int, rows: seq<Row>, first: int, today: int)
    requires (forall r :: r in rows ==> r.at + offset >= 0) && first <= today
    ensures GroupedByDay(offset, rows, DayStart(offset, first)) ==
            Points(offset, rows, first, today - 1) + Points(offset, rows, today, LastDay(offset, rows, today))
  {
    hide Points, LastDay, GroupedByDay, DayStart;
    var hi := LastDay(offset, rows, today);
    LastDayGrows(offset, rows, first - 1, today);
    GroupedIsPoints(offset, rows, first, hi);
    PointsJoin(offset, rows, first, today - 1, hi);
  }

  lemma TableParts(s: State, first: int, today: int)
    requires UpToDate(s, today) && first <= today
    ensures ListDays(s.usage, FirstDay(first), today - 1) == Points(s.offset, s.all, first, today - 1)
  {
    hide Sealed, NoStray, Points, ListDays;
    PointsFromTable(s, FirstDay(first), today - 1);
    PointsFromFirstDay(s.offset, s.all, first, today - 1);
  }

  lemma LiveParts(s: State, today: int)
    requires Inv(s) && s.watermark < today
    ensures GroupedByDay(s.offset, s.raw, DayStart(s.offset, today)) == Points(s.offset, s.all, today, LastDay(s.offset, s.all, today))
  {
    hide NoStray, SealedTo, Points, LastDay, GroupedByDay;
    LogGroupsSince(s, today, LastDay(s.offset, s.all, today));
  }

  lemma StaleParts(s: State, rows: seq<Row>, first: int, now: int)
    requires UpToDate(s, Today(s, now)) && first <= Today(s, now)
    requires forall r :: r in rows ==> r.at >= DayStart(s.offset, s.watermark + 1)
    ensures var s', today := InsertedAll(s, rows), Today(s, now);
            && s'.offset == s.offset && s'.all == s.all + rows && (forall r :: r in s'.all ==> r.at + s.offset >= 0)
            && DaysThenToday(s', first, now) ==
               Points(s.offset, s.all, first, today - 1) + Points(s.offset, s'.all, today, LastDay(s.offset, s'.all, today))
  {
    hide SealedTo, NoStray, Points, ListDays, LastDay, DayBucketOf, InsertedAll, GroupedByDay, DayStart;
    InsertedAllIs(s, rows);
    TableParts(s, first, Today(s, now));
    LiveParts(InsertedAll(s, rows), Today(s, now));
  }

  /** The table is as old as the last tick: days and today are those of all rows exactly when none logged since then
      belongs to a complete day they cover. */
  lemma DaysThenTodayIsStaleExactly(s: State, rows: seq<Row>, first: int, now: int)
    requires UpToDate(s, Today(s, now)) && first <= Today(s, now)
    requires forall r :: r in rows ==> r.at >= DayStart(s.offset, s.watermark + 1)
    ensures InsertedAll(s, rows).offset == s.offset
    ensures var s', today := InsertedAll(s, rows), Today(s, now);
            DaysThenToday(s', first, now) == GroupedByDay(s'.offset, s'.all, DayStart(s.offset, first)) <==>
            forall r :: r in rows ==> !(DayStart(s.offset, first) <= r.at < DayStart(s.offset, today))
  {
    hide *;
    var today := Today(s, now);
    var s' := InsertedAll(s, rows);
    StaleParts(s, rows, first, now);
    var live := Points(s.offset, s'.all, today, LastDay(s.offset, s'.all, today));
    GroupedParts(s.offset, s'.all, first, today);
    Cancel(Points(s.offset, s.all, first, today - 1), Points(s.offset, s'.all, first, today - 1), live);
    PointsGrowExactly(s.offset, s.all, rows, first, today - 1);
    NoneOfTheDays(s.offset, rows, first, today - 1);
  }

  lemma TrendIsStaleExactly(s: State, rows: seq<Row>, days: int, now: int)
    requires UpToDate(s, Today(s, now)) && forall r :: r in rows ==> r.at >= DayStart(s.offset, s.watermark + 1)
    ensures var s', first, today := InsertedAll(s, rows), Today(s, now) - (ClampDays(days) - 1), Today(s, now);
            TrendByDay(s', days, now) == GroupedByDay(s'.offset, s'.all, DayStart(s.offset, first)) <==>
            forall r :: r in rows ==> !(DayStart(s.offset, first) <= r.at < DayStart(s.offset, today))
  {
    hide UpToDate, DaysThenToday, GroupedByDay, InsertedAll, DayBucketOf, DayStart;
    DaysThenTodayIsStaleExactly(s, rows, Today(s, now) - (ClampDays(days) - 1), now);
  }

  /** Between midnight and the first tick of the day: the trend misses yesterday's requests exactly when some were logged
      after yesterday's last tick. */
  lemma TrendBeforeTheFirstTick(s: State, tick: int, rows: seq<Row>, days: int, now: int)
    requires Inv(s) && tick >= s.clock && Today(s, now) == Today(s, tick) + 1 && ClampDays(days) > 1
    requires forall r :: r in rows ==> InDay(s.offset, Today(s, tick), r.at)
    ensures var s' := InsertedAll(Ticked(s, tick), rows);
            TrendByDay(s', days, now) == GroupedByDay(s'.offset, s'.all, DayStart(s.offset, Today(s, now) - (ClampDays(days) - 1))) <==>
            rows == []
  {
    hide SealedTo, NoStray, Ticked, GroupedByDay, TrendByDay, DayBucketOf, ClampDays;
    TickSeals(s, tick);
    TrendIsStaleExactly(Ticked(s, tick), rows, days, now);
    if rows != [] {
      assert rows[0] in rows;
    }
  }

  function Between(rows: seq<Row>, from: int, to: int): seq<Row> {
    if rows == [] then []
    else Between(rows[..|rows| - 1], from, to) + if from <= rows[|rows| - 1].at < to then [rows[|rows| - 1]] else []
  }

  lemma {:induction false} SplitSince(rows: seq<Row>, from: int, to: int)
    requires from <= to
    ensures CostSince(rows, from) == Plus(TotalsOf(Between(rows, from, to)), CostSince(rows, to))
  {
    if rows == [] {
      NothingAdds(NOTHING);
    } else {
      var init, r := rows[..|rows| - 1], rows[|rows| - 1];
      SnocIs(init, r, rows);
      SplitSince(init, from, to);
      hide CostSince, TotalsOf, OfRow, Plus;
      CostSinceSnoc(init, r, from);
      CostSinceSnoc(init, r, to);
      TotalsSnoc(Between(init, from, to), r, from <= r.at < to);
      CountedOnce(TotalsOf(Between(init, from, to)), CostSince(init, to), OfRow(r), from <= r.at < to, r.at >= to);
    }
  }

  lemma {:induction false} CostSinceConcat(a: seq<Row>, b: seq<Row>, since: int)
    ensures CostSince(a + b, since) == Plus(CostSince(a, since), CostSince(b, since))
  {
    if b == [] {
      assert a + [] == a;
      NothingAdds(CostSince(a, since));
    } else {
      var init, r := b[..|b| - 1], b[|b| - 1];
      SnocIs(init, r, b);
      Associate(a, init, [r]);
      CostSinceConcat(a, init, since);
      hide CostSince, OfRow, Plus;
      CostSinceSnoc(a + init, r, since);
      CostSinceSnoc(init, r, since);
      PlusAssociates(CostSince(a, since), CostSince(init, since), if r.at >= since then OfRow(r) else NOTHING);
    }
  }

  /** The reader before and after the insertions. */
  lemma SpentAfter(s: State, rows: seq<Row>, start: int, now: int)
    ensures var s', midnight := s.(raw := s.raw + rows, all := s.all + rows), DayStart(s.offset, Today(s, now));
            PeriodSpent(s', start, now) == Plus(PeriodSpent(s, start, now), CostSince(rows, if midnight > start then midnight else start))
  {
    hide CostSince, SumDays, DayBucketOf, Plus;
    var midnight := DayStart(s.offset, Today(s, now));
    var from := if midnight > start then midnight else start;
    CostSinceConcat(s.raw, rows, from);
    PlusAssociates(SumDays(s.usage, DayBucketOf(s.offset, start), Today(s, now) - 1), CostSince(s.raw, from), CostSince(rows, from));
  }

  /** What the month's spending misses: exactly the rows of its complete days that were logged after the last tick. */
  lemma PeriodSpentMisses(s: State, rows: seq<Row>, day: int, now: int)
    requires UpToDate(s, Today(s, now)) && forall r :: r in rows ==> r.at >= DayStart(s.offset, s.watermark + 1)
    ensures var s', start := InsertedAll(s, rows), DayStart(s.offset, day);
            Plus(PeriodSpent(s', start, now), TotalsOf(Between(rows, start, DayStart(s.offset, Today(s, now))))) == CostSince(s'.all, start)
  {
    InsertedAllIs(s, rows);
    PeriodSpentIsExact(s, day, now);
    hide *;
    var start, midnight := DayStart(s.offset, day), DayStart(s.offset, Today(s, now));
    var missed := TotalsOf(Between(rows, start, midnight));
    SpentAfter(s, rows, start, now);
    CostSinceConcat(s.all, rows, start);
    if midnight > start {
      SplitSince(rows, start, midnight);
      PlusAssociates(PeriodSpent(s, start, now), CostSince(rows, midnight), missed);
      PlusAssociates(missed, CostSince(rows, midnight), missed);
    } else {
      NoneBetween(rows, start, midnight);
      NothingAdds(CostSince(s.all + rows, start));
    }
  }

  lemma {:induction false} NoneBetween(rows: seq<Row>, from: int, to: int)
    requires to <= from
    ensures Between(rows, from, to) == []
  {
    if rows != [] {
      NoneBetween(rows[..|rows| - 1], from, to);
    }
  }

  // ---------- recent complete days ----------

  /** The hybrid reader gives the costs of the last n complete days that have rows. */
  lemma RecentDayCostsAreExact(s: State, now: int, n: nat)
    requires UpToDate(s, Today(s, now))
    ensures RecentCompleteDayCosts(s, now, n) == Costs(Points(s.offset, s.all, Today(s, now) - n, Today(s, now) - 1))
  {
    hide Sealed, NoStray, Points, ListDays, Costs;
    var today := Today(s, now);
    PointsFromTable(s, FirstDay(today - n), today - 1);
    PointsFromFirstDay(s.offset, s.all, today - n, today - 1);
  }

  lemma {:induction false} BeforeDayOfPoints(offset: int, rows: seq<Row>, lo: int, hi: int, day: int)
    requires day - 1 <= hi
    ensures BeforeDay(Points(offset, rows, lo, hi), day) == Points(offset, rows, lo, day - 1)
    decreases hi - lo
  {
    hide OfDay, TotalsOf;
    if lo <= hi {
      if hi == day - 1 {
        AllBefore(offset, rows, lo, hi);
      } else {
        BeforeDayOfPoints(offset, rows, lo, hi - 1, day);
        var before := Points(offset, rows, lo, hi - 1);
        BeforeDaySnoc(before, Point(hi, TotalsOf(OfDay(offset, rows, hi))), day);
        assert before + [] == before;
      }
    }
  }

  lemma BeforeDaySnoc(points: seq<Point>, p: Point, day: int)
    ensures BeforeDay(points + [p], day) == BeforeDay(points, day) + if p.day < day then [p] else []
  {
    assert (points + [p])[..|points|] == points;
  }

  lemma {:induction false} AllBefore(offset: int, rows: seq<Row>, lo: int, hi: int)
    ensures BeforeDay(Points(offset, rows, lo, hi), hi + 1) == Points(offset, rows, lo, hi)
    decreases hi - lo
  {
    EarlierPoints(offset, rows, lo, hi);
    KeepsAll(Points(offset, rows, lo, hi), hi + 1);
  }

  lemma {:induction false} KeepsAll(points: seq<Point>, day: int)
    requires forall p :: p in points ==> p.day < day
    ensures BeforeDay(points, day) == points
  {
    if points != [] {
      var init, last := points[..|points| - 1], points[|points| - 1];
      assert last in points;
      forall p | p in init
        ensures p.day < day
      {
        assert p in points;
      }
      KeepsAll(init, day);
      assert init + [last] == points;
    }
  }

  lemma {:induction false} EarlierPoints(offset: int, rows: seq<Row>, lo: int, hi: int)
    ensures forall p :: p in Points(offset, rows, lo, hi) ==> p.day <= hi
    decreases hi - lo
  {
    if lo <= hi {
      EarlierPoints(offset, rows, lo, hi - 1);
    }
  }

  /** Without the table one more day counts: the two agree exactly when nothing was logged on it. */
  lemma LogCountsOneMoreDay(s: State, now: int, n: nat)
    requires UpToDate(s, Today(s, now)) && s.raw == s.all
    ensures var extra := Today(s, now) - (n + 1);
            RecentDayCostsFromLog(s, now, n) == RecentCompleteDayCosts(s, now, n) <==> OfDay(s.offset, s.all, extra) == []
  {
    hide Sealed, NoStray, LastDay, Points, GroupedByDay, SealedTo, OfDay;
    var today := Today(s, now);
    var extra := today - (n + 1);
    OnePoint(s.offset, s.all, extra);
    RecentDayCostsAreExact(s, now, n);
    var hi := LastDay(s.offset, s.all, today);
    LastDayGrows(s.offset, s.all, extra - 1, today);
    GroupedIsPoints(s.offset, s.all, extra, hi);
    BeforeDayOfPoints(s.offset, s.all, extra, hi, today);
    PointsJoin(s.offset, s.all, extra, extra, today - 1);
    SameCosts(Points(s.offset, s.all, extra, extra), Points(s.offset, s.all, extra + 1, today - 1));
  }

  /** They do differ: here two requests were logged on the one day more. */
  lemma AveragesDiffer()
    ensures var s := Ticked(Run(Initial(0, 172800), [Insert(FIRST_ROW), Insert(SECOND_ROW)]), 259200);
            UpToDate(s, 3) && RecentDayCostsFromLog(s, 259200, 1) != RecentCompleteDayCosts(s, 259200, 1)
  {
    hide Run, Ticked, Inv, OfDay, RecentDayCostsFromLog, RecentCompleteDayCosts, UpToDate, Since;
    var s := TwoInserted(FIRST_ROW, SECOND_ROW);
    TickSeals(s, 259200);
    TickBringsUpToDate(s, 259200);
    var s' := Ticked(s, 259200);
    NothingRemoved(s');
    BothOnDayOne();
    LogCountsOneMoreDay(s', 259200, 1);
  }

  lemma NothingRemoved(s: State)
    requires Inv(s) && s.all == [FIRST_ROW, SECOND_ROW] && s.cut == 86400
    ensures s.raw == s.all
  {
    SinceRemoves(s.all, 86400);
  }

  lemma OnePoint(offset: int, rows: seq<Row>, day: int)
    ensures Points(offset, rows, day, day) == [] <==> OfDay(offset, rows, day) == []
  {
  }

  lemma SameCosts(one: seq<Point>, rest: seq<Point>)
    ensures Costs(one + rest) == Costs(rest) <==> one == []
  {
    assert |Costs(one + rest)| == |one| + |rest| && |Costs(rest)| == |rest|;
    if one == [] {
      assert one + rest == rest;
    }
  }
}
