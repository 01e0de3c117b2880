/** Exactly when a rebuild or a cleanup is safe: the conditions the roll-up's guarantee rests on. */
module RollupLimits {
  import opened Common
  import opened DayBucket
  import opened Rollup

  /** Some rows of the day were removed and some are still there. */
  predicate PartlyCleaned(s: State, day: int) {
    var rows := OfDay(s.offset, s.all, day);
    (exists r :: r in rows && r.at < s.cut) && (exists r :: r in rows && r.at >= s.cut)
  }

  lemma {:induction false} OfDayOfSince(offset: int, rows: seq<Row>, cut: int, day: int)
    ensures OfDay(offset, Since(rows, cut), day) == Since(OfDay(offset, rows, day), cut)
  {
    if rows != [] {
      var init, last := rows[..|rows| - 1], rows[|rows| - 1];
      OfDayOfSince(offset, init, cut, day);
      OfDaySnoc(offset, Since(init, cut), last, day);
      SinceSnoc(OfDay(offset, init, day), last, cut);
    }
  }

  lemma OfDaySnoc(offset: int, rows: seq<Row>, r: Row, day: int)
    ensures OfDay(offset, rows + [r], day) == OfDay(offset, rows, day) + if InDay(offset, day, r.at) then [r] else []
  {
    assert (rows + [r])[..|rows|] == rows;
  }

  lemma SinceSnoc(rows: seq<Row>, r: Row, cut: int)
    ensures Since(rows + [r], cut) == Since(rows, cut) + if r.at >= cut then [r] else []
  {
    assert (rows + [r])[..|rows|] == rows;
  }

  lemma {:induction false} SinceRemoves(rows: seq<Row>, cut: int)
    ensures |Since(rows, cut)| <= |rows|
    ensures Since(rows, cut) == rows <==> |Since(rows, cut)| == |rows|
    ensures |Since(rows, cut)| == |rows| <==> forall r :: r in rows ==> r.at >= cut
    ensures Since(rows, cut) == [] <==> forall r :: r in rows ==> r.at < cut
  {
    if rows != [] {
      var init, last := rows[..|rows| - 1], rows[|rows| - 1];
      SinceRemoves(init, cut);
      assert init + [last] == rows;
      InSnoc(init, last);
    }
  }

  /** Rebuilding a sealed day keeps its row right exactly when retention has not cut through the day. */
  lemma RebuildKeepsSealExactly(s: State, day: int)
    requires Retained(s) && Sealed(s, day)
    ensures Sealed(RebuiltDay(s, day), day) <==> !PartlyCleaned(s, day)
  {
    var rows, left := OfDay(s.offset, s.all, day), OfDay(s.offset, s.raw, day);
    OfDayOfSince(s.offset, s.all, s.cut, day);
    SinceRemoves(rows, s.cut);
    if left != [] {
      RebuildReplacesOneDay(s, day, day);
      assert Summary(left).requests == |left| && Summary(rows).requests == |rows|;
    }
  }

  /** A partly cleaned day comes out smaller. */
  lemma RebuildShrinksPartlyCleanedDay(s: State, day: int)
    requires Retained(s) && Sealed(s, day) && PartlyCleaned(s, day)
    ensures day in s.usage && day in RebuiltDay(s, day).usage
    ensures RebuiltDay(s, day).usage[day].requests < s.usage[day].requests
  {
    OfDayOfSince(s.offset, s.all, s.cut, day);
    SinceRemoves(OfDay(s.offset, s.all, day), s.cut);
  }

  lemma RunSnoc(s: State, ops: seq<Op>, op: Op)
    ensures Run(s, ops + [op]) == Step(Run(s, ops), op)
    ensures AllowedRun(s, ops + [op]) <==> AllowedRun(s, ops) && Allowed(Run(s, ops), op)
  {
    assert (ops + [op])[..|ops|] == ops;
  }

  lemma TwoSteps(s: State, a: Op, b: Op)
    ensures Run(s, [a, b]) == Step(Step(s, a), b)
    ensures AllowedRun(s, [a, b]) <==> Allowed(s, a) && Allowed(Step(s, a), b)
  {
    hide Step, Allowed;
    RunSnoc(s, [], a);
    RunSnoc(s, [a], b);
    assert [] + [a] == [a] && [a] + [b] == [a, b];
  }

  const FIRST_ROW := Row(86400, "m", false, 1, 1, 0, 0.0, 1)
  const SECOND_ROW := Row(90000, "m", false, 1, 1, 0, 0.0, 1)

  lemma TwoInserted(first: Row, second: Row) returns (s: State)
    requires first.at >= 86400 && second.at >= 86400
    ensures AllowedRun(Initial(0, 172800), [Insert(first), Insert(second)])
    ensures s == Run(Initial(0, 172800), [Insert(first), Insert(second)])
    ensures Inv(s) && s.all == [first, second] && s.offset == 0 && s.clock == 172800 && s.cut == 86400
  {
    hide Inv;
    InitialInv(0, 172800);
    s := Initial(0, 172800);
    TwoSteps(s, Insert(first), Insert(second));
    InsertKeepsInv(s, first);
    s := Inserted(s, first);
    InsertKeepsInv(s, second);
    s := Inserted(s, second);
    assert [] + [first] + [second] == [first, second];
  }

  lemma CleanedStaysSealed(s: State, cutoff: int, day: int)
    requires Sealed(s, day)
    ensures Sealed(Cleaned(s, cutoff), day)
  {
    hide OnlyDay, OfDay, Summary, GroupByModel, Since;
  }

  lemma BothOnDayOne()
    ensures FIRST_ROW in OfDay(0, [FIRST_ROW, SECOND_ROW], 1) && SECOND_ROW in OfDay(0, [FIRST_ROW, SECOND_ROW], 1)
  {
    OfDayHas(0, [FIRST_ROW, SECOND_ROW], 1, FIRST_ROW);
    OfDayHas(0, [FIRST_ROW, SECOND_ROW], 1, SECOND_ROW);
  }

  /** A run in which this happens: two requests on day 1, the tick that seals day 1, a cutoff between the two. */
  lemma PartlyCleanedDayExists()
    ensures var s := Cleaned(Ticked(Run(Initial(0, 172800), [Insert(FIRST_ROW), Insert(SECOND_ROW)]), 259200), 90000);
            Inv(s) && Sealed(s, 1) && PartlyCleaned(s, 1)
  {
    hide Inv, Run, Ticked, Sealed, OfDay, Since;
    var s := TwoInserted(FIRST_ROW, SECOND_ROW);
    TickSeals(s, 259200);
    var s' := Ticked(s, 259200);
    CleanKeepsInv(s', 90000);
    assert Sealed(s', 1);
    CleanedStaysSealed(s', 90000, 1);
    BothOnDayOne();
  }

  lemma {:induction false} OfDayHas(offset: int, rows: seq<Row>, day: int, r: Row)
    ensures r in OfDay(offset, rows, day) <==> r in rows && InDay(offset, day, r.at)
  {
    if rows != [] {
      var init, last := rows[..|rows| - 1], rows[|rows| - 1];
      OfDayHas(offset, init, day, r);
      assert init + [last] == rows;
      InSnoc(init, last);
      InSnoc(OfDay(offset, init, day), last);
    }
  }

  /** A full rebuild forgets every removed row: it is safe exactly while nothing has been removed. */
  lemma RebuildAllIsSafeExactly(s: State, now: int)
    requires Inv(s) && now >= s.clock
    ensures SealedTo(RebuiltAll(s, now), Today(s, now) - SEAL_LAG) <==> s.raw == s.all
  {
    if s.raw == s.all {
      BackfillSealsTo(s, Today(s, now) - SEAL_LAG);
      SealsReadTables(Backfilled(s), RebuiltAll(s, now), Today(s, now) - SEAL_LAG);
    } else {
      SinceRemoves(s.all, s.cut);
      var r :| r in s.all && r.at < s.cut;
      RebuildAllUnseals(s, now, r);
    }
  }

  lemma RebuildAllUnseals(s: State, now: int, r: Row)
    requires Inv(s) && now >= s.clock && r in s.all && r.at < s.cut
    ensures !SealedTo(RebuiltAll(s, now), Today(s, now) - SEAL_LAG)
  {
    var s', day := RebuiltAll(s, now), DayBucketOf(s.offset, r.at);
    BucketAndRangeAreInverse(s.offset, r.at);
    assert day <= s.watermark <= Today(s, now) - SEAL_LAG;
    OfDayHas(s.offset, s.all, day, r);
    ShrunkDayIsNotSealed(s, now, day, r);
    SealedToMeans(s', Today(s, now) - SEAL_LAG, day);
  }

  lemma SealedToMeans(s: State, last: int, day: int)
    requires day <= last
    ensures SealedTo(s, last) ==> Sealed(s, day)
  {
  }

  lemma ShrunkDayIsNotSealed(s: State, now: int, day: int, r: Row)
    requires Retained(s) && (forall x :: x in s.all ==> x.at + s.offset >= 0)
    requires r in OfDay(s.offset, s.all, day) && r.at < s.cut
    ensures !Sealed(RebuiltAll(s, now), day)
  {
    hide Summary, GroupByModel, OnlyDay, OfDay, Since, OfBucket, Days, GroupDays;
    var rows, left := OfDay(s.offset, s.all, day), OfDay(s.offset, s.raw, day);
    SinceKeeps(s.all, s.cut);
    BucketsAreDays(s.offset, s.raw, day);
    OfDayOfSince(s.offset, s.all, s.cut, day);
    SinceRemoves(rows, s.cut);
    assert Summary(left).requests == |left| < |rows| == Summary(rows).requests;
  }

  lemma {:induction false} SinceKeeps(rows: seq<Row>, cut: int)
    ensures forall r :: r in Since(rows, cut) ==> r in rows
  {
    if rows != [] {
      var init, last := rows[..|rows| - 1], rows[|rows| - 1];
      SinceKeeps(init, cut);
      assert init + [last] == rows;
      InSnoc(init, last);
      InSnoc(Since(init, cut), last);
    }
  }

  // ---------- cleanups ----------

  /** Rebuilding the day shows all rows ever inserted for it: they are all there, or none is and the table was right. */
  predicate SealsOnRebuild(s: State, day: int) {
    var left := OfDay(s.offset, s.raw, day);
    if left == [] then Sealed(s, day) else left == OfDay(s.offset, s.all, day)
  }

  lemma RebuiltDaySealedExactly(s: State, day: int)
    requires Retained(s)
    ensures Sealed(RebuiltDay(s, day), day) <==> SealsOnRebuild(s, day)
  {
    hide OnlyDay, OfDay, Since, GroupByModel, WithoutDay;
    var rows, left := OfDay(s.offset, s.all, day), OfDay(s.offset, s.raw, day);
    OfDayOfSince(s.offset, s.all, s.cut, day);
    SinceRemoves(rows, s.cut);
    if left != [] {
      RebuildReplacesOneDay(s, day, day);
      assert Summary(left).requests == |left| && Summary(rows).requests == |rows|;
    }
  }

  lemma RebuiltDayLeavesOthers(s: State, day: int, other: int)
    requires other != day
    ensures Sealed(RebuiltDay(s, day), other) <==> Sealed(s, other)
  {
    hide OnlyDay, OfDay, GroupByModel, WithoutDay, Summary;
    if OfDay(s.offset, s.raw, day) != [] {
      RebuildReplacesOneDay(s, day, other);
    }
  }

  lemma {:induction false} RebuiltDaysSealedExactly(s: State, first: int, last: int, day: int)
    requires Retained(s)
    ensures Sealed(RebuiltDays(s, first, last), day) <==> if first <= day <= last then SealsOnRebuild(s, day) else Sealed(s, day)
    decreases last - first
  {
    hide Sealed, RebuiltDay, OfDay, Since;
    if first <= last {
      var before := RebuiltDays(s, first, last - 1);
      RebuiltDaysKeepLog(s, first, last - 1);
      RebuiltDaysSealedExactly(s, first, last - 1, day);
      if day == last {
        RebuiltDaySealedExactly(before, day);
      } else {
        RebuiltDayLeavesOthers(before, last, day);
      }
    }
  }

  /** Only the log and the tables decide whether a day is sealed. */
  lemma SealReadsTables(s: State, s': State, day: int)
    requires s'.offset == s.offset && s'.all == s.all && s'.usage == s.usage && s'.models == s.models
    ensures Sealed(s', day) <==> Sealed(s, day)
  {
  }

  /** A tick rebuilds every day after the watermark up to today once. */
  lemma TickSealsDayExactly(s: State, now: int, day: int)
    requires Retained(s) && s.watermark <= Today(s, now) - SEAL_LAG && day <= Today(s, now)
    ensures Sealed(Ticked(s, now), day) <==> if day <= s.watermark then Sealed(s, day) else SealsOnRebuild(s, day)
  {
    hide Sealed, RebuiltDays, OfDay, Since;
    var today := Today(s, now);
    var recent := RebuiltDays(s, today - 1, today);
    RebuiltDaysKeepLog(s, today - 1, today);
    RebuiltDaysSealedExactly(s, today - 1, today, day);
    if s.watermark < today - SEAL_LAG {
      var sealed := RebuiltDays(recent, s.watermark + 1, today - SEAL_LAG);
      RebuiltDaysSealedExactly(recent, s.watermark + 1, today - SEAL_LAG, day);
      SealReadsTables(sealed, Ticked(s, now), day);
    } else {
      SealReadsTables(recent, Ticked(s, now), day);
    }
  }

  lemma CleanedIsRetained(s: State, cutoff: int)
    requires Retained(s)
    ensures Retained(Cleaned(s, cutoff))
  {
    SinceSince(s.all, s.cut, cutoff);
  }

  lemma LaterIsNoEarlierDay(s: State, earlier: int, later: int)
    requires earlier <= later
    ensures Today(s, earlier) <= Today(s, later)
  {
  }

  /** After any cleanup the next tick gives right tables up to `last` exactly when every day it rebuilds has all of its rows
      left, or none and a row in the tables that is right already. */
  lemma TickAfterCleanupSealsExactly(s: State, cutoff: int, now: int, last: int)
    requires Inv(s) && now >= s.clock && s.watermark <= last <= Today(s, now)
    ensures var c := Cleaned(s, cutoff);
            SealedTo(Ticked(c, now), last) <==> forall day :: s.watermark < day <= last ==> SealsOnRebuild(c, day)
  {
    var c := Cleaned(s, cutoff);
    CleanedIsRetained(s, cutoff);
    LaterIsNoEarlierDay(s, s.clock, now);
    hide SealsOnRebuild, NoStray, Retained, Since, Ticked, DayBucketOf, Sealed;
    forall day | day <= last
      ensures Sealed(Ticked(c, now), day) <==> day <= s.watermark || SealsOnRebuild(c, day)
    {
      TickSealsDayExactly(c, now, day);
      if day <= s.watermark {
        assert Sealed(s, day);
        CleanedStaysSealed(s, cutoff, day);
      }
    }
  }

  /** A cleanup with this setting loses nothing: whatever was logged and done before, with the watermark where a tick at `tick`
      puts it, the next tick after the cleanup leaves the tables right up to its day. */
  ghost predicate LosesNothing(offset: int, clock: int, tick: int, now: int, maxDays: int, later: int) {
    forall ops :: AllowedRun(Initial(offset, clock), ops) ==>
      var s := Run(Initial(offset, clock), ops);
      s.watermark == DayBucketOf(offset, tick) - SEAL_LAG && s.clock <= now ==>
        SealedTo(Ticked(Cleaned(s, Cutoff(now, maxDays)), later), DayBucketOf(offset, later))
  }

  /** It loses nothing exactly when its cutoff is no later than the end of the watermark day. */
  lemma CleanupLosesNothingExactly(offset: int, clock: int, tick: int, now: int, maxDays: int, later: int)
    requires clock + offset >= 2 * 86400 && clock <= tick <= now <= later
    ensures LosesNothing(offset, clock, tick, now, maxDays, later) <==>
            Cutoff(now, maxDays) <= DayStart(offset, DayBucketOf(offset, tick) - SEAL_LAG + 1)
  {
    hide Inv, SealedTo, Ticked, Cleaned, Run, AllowedRun, Cutoff;
    if Cutoff(now, maxDays) <= DayStart(offset, DayBucketOf(offset, tick) - SEAL_LAG + 1) {
      forall ops | AllowedRun(Initial(offset, clock), ops)
        ensures var s := Run(Initial(offset, clock), ops);
                s.watermark == DayBucketOf(offset, tick) - SEAL_LAG && s.clock <= now ==>
                  SealedTo(Ticked(Cleaned(s, Cutoff(now, maxDays)), later), DayBucketOf(offset, later))
      {
        var s := Run(Initial(offset, clock), ops);
        RunInv(offset, clock, ops);
        if s.watermark == DayBucketOf(offset, tick) - SEAL_LAG && s.clock <= now {
          AllowedCleanupKeeps(s, Cutoff(now, maxDays), later);
        }
      }
    } else {
      var ops := LateRowIsLost(offset, clock, tick, Cutoff(now, maxDays), later);
    }
  }

  lemma AllowedCleanupKeeps(s: State, cutoff: int, later: int)
    requires Inv(s) && cutoff <= DayStart(s.offset, s.watermark + 1) && s.clock <= later
    ensures SealedTo(Ticked(Cleaned(s, cutoff), later), DayBucketOf(s.offset, later))
  {
    hide SealedTo, NoStray, Retained, Ticked;
    CleanKeepsInv(s, cutoff);
    TickSeals(Cleaned(s, cutoff), later);
  }

  /** A row that was logged after the tick, at the start of the day after the watermark, and removed by the cleanup. */
  lemma LateRowIsLost(offset: int, clock: int, tick: int, cutoff: int, later: int) returns (ops: seq<Op>)
    requires clock + offset >= 2 * 86400 && clock <= tick <= later
    requires cutoff > DayStart(offset, DayBucketOf(offset, tick) - SEAL_LAG + 1)
    ensures AllowedRun(Initial(offset, clock), ops)
    ensures var s := Run(Initial(offset, clock), ops);
            && s.watermark == DayBucketOf(offset, tick) - SEAL_LAG && s.clock == tick
            && !SealedTo(Ticked(Cleaned(s, cutoff), later), DayBucketOf(offset, later))
  {
    hide Inv, SealedTo, Ticked, Cleaned, NoStray;
    var start := Initial(offset, clock);
    InitialInv(offset, clock);
    TickSeals(start, tick);
    var ticked := Ticked(start, tick);
    var row := Row(DayStart(offset, ticked.watermark + 1), "m", false, 1, 1, 0, 0.0, 1);
    TwoSteps(start, Tick(tick), Insert(row));
    ops := [Tick(tick), Insert(row)];
    InsertKeepsInv(ticked, row);
    OnlyRowIsLost(ticked, row, cutoff, later);
  }

  lemma OnlyRowIsLost(s: State, row: Row, cutoff: int, later: int)
    requires Inv(s) && s.all == [] && row.at == DayStart(s.offset, s.watermark + 1) < cutoff && later >= s.clock
    requires Inv(Inserted(s, row))
    ensures !SealedTo(Ticked(Cleaned(Inserted(s, row), cutoff), later), DayBucketOf(s.offset, later))
  {
    var s' := Inserted(s, row);
    hide SealsOnRebuild, SealedTo, Ticked, Cleaned, NoStray, DayBucketOf, DayStart;
    LaterIsNoEarlierDay(s, s.clock, later);
    TickAfterCleanupSealsExactly(s', cutoff, later, Today(s, later));
    LostDay(s, row, cutoff);
  }

  lemma LostDay(s: State, row: Row, cutoff: int)
    requires Retained(s) && NoStray(s) && s.all == [] && row.at == DayStart(s.offset, s.watermark + 1) < cutoff
    ensures !SealsOnRebuild(Cleaned(Inserted(s, row), cutoff), s.watermark + 1)
  {
    hide OfDay, Since, Summary, GroupByModel, OnlyDay;
    var day := s.watermark + 1;
    var c := Cleaned(Inserted(s, row), cutoff);
    assert [] + [row] == [row];
    NoRows(s.offset, day, s.cut);
    assert c.raw == Since([row], cutoff) && c.all == [row];
    NothingIsLeft(s.offset, row, cutoff, day);
    OfDaySnoc(s.offset, [], row, day);
    assert day !in s.usage;
  }

  lemma NothingIsLeft(offset: int, row: Row, cut: int, day: int)
    requires row.at < cut
    ensures OfDay(offset, Since([row], cut), day) == []
  {
    SinceRemoves([row], cut);
  }

  lemma NoRows(offset: int, day: int, cut: int)
    ensures OfDay(offset, [], day) == [] && Since([], cut) == []
  {
  }

  /** Which settings are safe at every moment of a day, with the last tick on that day or before: with one on the same day
      two days, with one the day before three, and one day never. */
  lemma SafeSettingsExactly(offset: int, clock: int, tick: int, today: int, maxDays: int)
    requires clock + offset >= 2 * 86400 && clock <= tick && DayBucketOf(offset, tick) <= today
    ensures (forall now, later :: InDay(offset, today, now) && tick <= now <= later ==>
              LosesNothing(offset, clock, tick, now, maxDays, later)) <==>
            KeptDays(maxDays) >= today - DayBucketOf(offset, tick) + SEAL_LAG
  {
    hide LosesNothing, KeptDays;
    var sealed := DayBucketOf(offset, tick) - SEAL_LAG;
    var lastMoment := DayStart(offset, today + 1) - 1;
    assert InDay(offset, today, lastMoment);
    assert tick <= lastMoment by { BucketAndRangeAreInverse(offset, tick); }
    assert Cutoff(lastMoment, maxDays) == DayStart(offset, today + 1 - KeptDays(maxDays)) - 1;
    CleanupLosesNothingExactly(offset, clock, tick, lastMoment, maxDays, lastMoment);
    forall now, later | InDay(offset, today, now) && tick <= now <= later
      ensures LosesNothing(offset, clock, tick, now, maxDays, later) <==> Cutoff(now, maxDays) <= DayStart(offset, sealed + 1)
    {
      CleanupLosesNothingExactly(offset, clock, tick, now, maxDays, later);
    }
  }

  const MORNING := Row(176400, "m", false, 1, 1, 0, 0.0, 1)
  const EVENING := Row(255600, "m", false, 1, 1, 0, 0.0, 1)

  /** A rebuilt day shows the rows that are left of it; the others stay as they were. */
  lemma {:induction false} RebuiltDaysShow(s: State, first: int, last: int, day: int)
    ensures var usage := RebuiltDays(s, first, last).usage;
            if first <= day <= last && OfDay(s.offset, s.raw, day) != [] then day in usage && usage[day] == Summary(OfDay(s.offset, s.raw, day))
            else (day in usage <==> day in s.usage) && (day in usage ==> usage[day] == s.usage[day])
    decreases last - first
  {
    hide OfDay, Summary, GroupByModel, WithoutDay;
    if first <= last {
      RebuiltDaysKeepLog(s, first, last - 1);
      RebuiltDaysShow(s, first, last - 1, day);
    }
  }

  lemma TickShowsWhatIsLeft(s: State, now: int, day: int)
    requires s.watermark < day <= Today(s, now) - SEAL_LAG && OfDay(s.offset, s.raw, day) != []
    ensures day in Ticked(s, now).usage && Ticked(s, now).usage[day] == Summary(OfDay(s.offset, s.raw, day))
  {
    hide RebuiltDays, OfDay, Summary;
    var today := Today(s, now);
    RebuiltDaysKeepLog(s, today - 1, today);
    RebuiltDaysShow(RebuiltDays(s, today - 1, today), s.watermark + 1, today - SEAL_LAG, day);
  }

  /** Keeping one day loses rows in ordinary operation: two requests on day 2, a tick and a cleanup at noon of day 3, and
      the tick of the next midnight seals day 2 with one request. */
  lemma KeepingOneDayLosesARow()
    ensures AllowedRun(Initial(0, 172800), [Insert(MORNING), Insert(EVENING)] + [Tick(302400)])
    ensures var s := Run(Initial(0, 172800), [Insert(MORNING), Insert(EVENING)] + [Tick(302400)] + [Clean(302400, 1)] + [Tick(345600)]);
            && s.watermark == 2 && OfDay(0, s.all, 2) == [MORNING, EVENING]
            && 2 in s.usage && s.usage[2].requests == 1 && !Sealed(s, 2)
  {
    hide Inv, Run, AllowedRun, Ticked, OfDay, Since, RebuiltDays;
    var start, ops := Initial(0, 172800), [Insert(MORNING), Insert(EVENING)];
    var s := TwoInserted(MORNING, EVENING);
    RunSnoc(start, ops, Tick(302400));
    RunSnoc(start, ops + [Tick(302400)], Clean(302400, 1));
    RunSnoc(start, ops + [Tick(302400)] + [Clean(302400, 1)], Tick(345600));
    TickSeals(s, 302400);
    NoonCleanup(Ticked(s, 302400));
  }

  lemma NoonCleanup(s: State)
    requires Inv(s) && s.offset == 0 && s.all == [MORNING, EVENING] && s.cut <= 172800 && s.watermark == 1 && s.clock == 302400
    ensures var s' := Ticked(Cleaned(s, Cutoff(302400, 1)), 345600);
            && s'.watermark == 2 && OfDay(0, s'.all, 2) == [MORNING, EVENING]
            && 2 in s'.usage && s'.usage[2].requests == 1 && !Sealed(s', 2)
  {
    var c := Cleaned(s, 216000);
    CleanedIsRetained(s, 216000);
    DayTwo(c);
    hide Inv, OfDay, Since, RebuiltDays, Summary;
    TickSealsDayExactly(c, 345600, 2);
    TickShowsWhatIsLeft(c, 345600, 2);
    RebuiltDaysKeepLog(c, 3, 4);
    RebuiltDaysKeepLog(RebuiltDays(c, 3, 4), 2, 2);
  }

  lemma DayTwo(c: State)
    requires Retained(c) && c.offset == 0 && c.all == [MORNING, EVENING] && c.cut == 216000
    ensures OfDay(0, c.raw, 2) == [EVENING] && OfDay(0, c.all, 2) == [MORNING, EVENING]
  {
    hide OfDay, Since;
    assert [] + [MORNING] == [MORNING] && [MORNING] + [EVENING] == [MORNING, EVENING] && [] + [EVENING] == [EVENING];
    OfDaySnoc(0, [], MORNING, 2);
    OfDaySnoc(0, [MORNING], EVENING, 2);
    OfDaySnoc(0, [], EVENING, 2);
    SinceSnoc([], MORNING, 216000);
    SinceSnoc([MORNING], EVENING, 216000);
    NoRows(0, 2, 216000);
  }

  /** A cleanup is allowed at every moment of a day exactly when the watermark is no older than the days it keeps. */
  lemma CleanupIsAllowedExactly(s: State, today: int, maxDays: int)
    ensures (forall now :: InDay(s.offset, today, now) ==> Allowed(s, Clean(now, maxDays))) <==>
            s.watermark >= today - KeptDays(maxDays)
  {
    var lastMoment := DayStart(s.offset, today + 1) - 1;
    assert InDay(s.offset, today, lastMoment);
    assert Cutoff(lastMoment, maxDays) == DayStart(s.offset, today + 1 - KeptDays(maxDays)) - 1;
  }

  /** With a tick on the same or the previous local day, keeping three days is always enough. */
  lemma CleanupAfterTick(s: State, tick: int, now: int, maxDays: int)
    requires Inv(s) && s.clock <= tick <= now
    ensures var s' := Ticked(s, tick);
            Today(s, now) <= Today(s, tick) + 1 && KeptDays(maxDays) >= 3 ==> Inv(Step(s', Clean(now, maxDays)))
  {
    TickSeals(s, tick);
    var s', today := Ticked(s, tick), Today(s, now);
    if today <= Today(s, tick) + 1 && KeptDays(maxDays) >= 3 {
      CleanupIsAllowedExactly(s', today, maxDays);
      BucketAndRangeAreInverse(s.offset, now);
      assert InDay(s.offset, today, now);
      assert Allowed(s', Clean(now, maxDays));
      CleanKeepsInv(s', Cutoff(now, maxDays));
    }
  }

  /** Rows need not arrive in order: up to a full day late they still land after the watermark. */
  lemma LateRowsAreAllowed(s: State, row: Row)
    requires Inv(s) && row.at >= s.clock - 86400
    ensures Allowed(s, Insert(row))
  {
    BucketAndRangeAreInverse(s.offset, s.clock);
    assert InDay(s.offset, Today(s, s.clock), s.clock);
  }
}
