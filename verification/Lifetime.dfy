/** Lifetime statistics: totals, the peak day and streaks of consecutive days. */
module Lifetime {
  import opened Common
  import opened DayBucket
  import opened Rollup
  import opened Readers

  datatype Stat = Stat(totalTokens: int, peakDayTokens: int, peakDay: Option<int>, maxDurationMs: nat,
                       currentStreak: nat, maxStreak: nat, activeDays: nat)

  predicate Ascending(days: seq<Point>) {
    forall i, j :: 0 <= i < j < |days| ==> days[i].day < days[j].day
  }

  /** `n` consecutive calendar days, starting with the entry at `at`. */
  predicate IsRun(days: seq<Point>, at: nat, n: nat) {
    at + n <= |days| && forall j :: at <= j < at + n ==> days[j].day == days[at].day + (j - at)
  }

  /** No run of consecutive days is longer, and some run is as long. */
  ghost predicate IsLongestRun(days: seq<Point>, n: nat) {
    (exists at: nat :: IsRun(days, at, n)) && forall at: nat, m: nat :: IsRun(days, at, m) ==> m <= n
  }

  /** The run that ends with the last entry. */
  predicate IsLastRun(days: seq<Point>, n: nat) {
    && n <= |days| && (days != [] ==> n > 0) && IsRun(days, |days| - n, n)
    && (n < |days| ==> days[|days| - n - 1].day + 1 != days[|days| - n].day)
  }

  /** The day at `i` has the most tokens, and no earlier one has as many. */
  predicate IsFirstPeak(days: seq<Point>, i: nat) {
    && i < |days|
    && (forall j :: 0 <= j < |days| ==> days[j].totals.tokens <= days[i].totals.tokens)
    && forall j :: 0 <= j < i ==> days[j].totals.tokens < days[i].totals.tokens
  }

  /** The first of the largest days, and none when no day has a positive number. */
  ghost predicate IsPeak(days: seq<Point>, day: Option<int>, tokens: int) {
    match day
    case None => tokens == 0 && forall j :: 0 <= j < |days| ==> days[j].totals.tokens <= 0
    case Some(d) => tokens > 0 && exists i: nat :: IsFirstPeak(days, i) && days[i].day == d && days[i].totals.tokens == tokens
  }

  lemma LastRunIsAtMost(days: seq<Point>, n: nat, at: nat, m: nat)
    requires IsLastRun(days, n) && IsRun(days, at, m) && at + m == |days|
    ensures m <= n
  {
  }

  /** One more day: the last run grows by one or starts again, and the longest run is the longer of the two. */
  lemma OneMoreDay(days: seq<Point>, i: nat, streak: nat, longest: nat, streak': nat)
    requires i < |days| && Ascending(days) && IsLastRun(days[..i], streak) && IsLongestRun(days[..i], longest)
    requires streak' == if i > 0 && days[i].day == days[i - 1].day + 1 then streak + 1 else 1
    ensures IsLastRun(days[..i + 1], streak')
    ensures IsLongestRun(days[..i + 1], if streak' > longest then streak' else longest)
  {
    var before, now := days[..i], days[..i + 1];
    NewLastRun(days, i, streak, streak');
    var best := if streak' > longest then streak' else longest;
    var at: nat :| IsRun(before, at, longest);
    RunInLonger(days, i, at, longest);
    assert IsRun(now, |now| - streak', streak');
    forall at: nat, m: nat | IsRun(now, at, m)
      ensures m <= best
    {
      if at + m == |now| {
        LastRunIsAtMost(now, streak', at, m);
      } else {
        RunInPrefix(days, i, at, m);
      }
    }
  }

  lemma RunInLonger(days: seq<Point>, i: nat, at: nat, m: nat)
    requires i < |days| && IsRun(days[..i], at, m)
    ensures IsRun(days[..i + 1], at, m)
  {
    var before, now := days[..i], days[..i + 1];
    forall j | at <= j < at + m
      ensures now[j].day == now[at].day + (j - at)
    {
      assert before[j].day == before[at].day + (j - at);
    }
  }

  lemma RunInPrefix(days: seq<Point>, i: nat, at: nat, m: nat)
    requires i < |days| && IsRun(days[..i + 1], at, m) && at + m != i + 1
    ensures IsRun(days[..i], at, m)
  {
    var before, now := days[..i], days[..i + 1];
    forall j | at <= j < at + m
      ensures before[j].day == before[at].day + (j - at)
    {
      assert now[j].day == now[at].day + (j - at);
    }
  }

  lemma NewLastRun(days: seq<Point>, i: nat, streak: nat, streak': nat)
    requires i < |days| && IsLastRun(days[..i], streak)
    requires streak' == if i > 0 && days[i].day == days[i - 1].day + 1 then streak + 1 else 1
    ensures IsLastRun(days[..i + 1], streak')
  {
    var before, now := days[..i], days[..i + 1];
    if i > 0 && days[i].day == days[i - 1].day + 1 {
      var first := i - streak;
      assert before[i - 1].day == before[first].day + (i - 1 - first);
      forall j | first <= j < i + 1
        ensures now[j].day == now[first].day + (j - first)
      {
        if j < i {
          assert before[j].day == before[first].day + (j - first);
        }
      }
      assert first > 0 ==> before[first - 1].day + 1 != before[first].day;
    }
  }

  /** Totals and streaks from days in ascending order, as the loop computes them. */
  method LifetimeFromDays(days: seq<Point>, today: int) returns (st: Stat)
    requires Ascending(days)
    ensures st.totalTokens == SumOf(days).tokens && st.maxDurationMs == SumOf(days).maxMs && st.activeDays == |days|
    ensures IsPeak(days, st.peakDay, st.peakDayTokens)
    ensures IsLongestRun(days, st.maxStreak)
    ensures if days != [] && (days[|days| - 1].day == today || days[|days| - 1].day == today - 1)
            then IsLastRun(days, st.currentStreak) else st.currentStreak == 0
  {
    hide IsLongestRun, IsLastRun, IsPeak;
    var total, peak, longestMs, streak, maxStreak := 0, 0, 0, 0, 0;
    var peakDay: Option<int> := None;
    NoDays();
    for i := 0 to |days|
      invariant total == SumOf(days[..i]).tokens && longestMs == SumOf(days[..i]).maxMs
      invariant IsPeak(days[..i], peakDay, peak)
      invariant IsLastRun(days[..i], streak) && IsLongestRun(days[..i], maxStreak)
    {
      assert days[..i + 1][..i] == days[..i];
      total := total + days[i].totals.tokens;
      HigherPeak(days, i, peakDay, peak);
      if days[i].totals.tokens > peak {
        peak := days[i].totals.tokens;
        peakDay := Some(days[i].day);
      }
      if days[i].totals.maxMs > longestMs {
        longestMs := days[i].totals.maxMs;
      }
      ghost var before, longest := streak, maxStreak;
      if i > 0 && days[i].day == days[i - 1].day + 1 {
        streak := streak + 1;
      } else {
        streak := 1;
      }
      if streak > maxStreak {
        maxStreak := streak;
      }
      OneMoreDay(days, i, before, longest, streak);
    }
    assert days[..|days|] == days;
    var current := 0;
    if |days| > 0 {
      var last := days[|days| - 1].day;
      if last == today || last == today - 1 {
        current := streak;
      }
    }
    st := Stat(total, peak, peakDay, longestMs, current, maxStreak, |days|);
  }

  lemma NoDays()
    ensures IsLastRun([], 0) && IsLongestRun([], 0) && IsPeak([], None, 0)
  {
    assert IsRun([], 0, 0);
  }

  lemma HigherPeak(days: seq<Point>, i: nat, day: Option<int>, peak: int)
    requires i < |days| && IsPeak(days[..i], day, peak)
    ensures if days[i].totals.tokens > peak then IsPeak(days[..i + 1], Some(days[i].day), days[i].totals.tokens)
            else IsPeak(days[..i + 1], day, peak)
  {
    var before, now := days[..i], days[..i + 1];
    assert forall j :: 0 <= j < i ==> before[j] == now[j];
    if days[i].totals.tokens > peak {
      assert IsFirstPeak(now, i);
    } else if day.Some? {
      var k: nat :| IsFirstPeak(before, k) && before[k].day == day.value && before[k].totals.tokens == peak;
      assert IsFirstPeak(now, k);
    }
  }

  lemma {:induction false} PointsAscend(offset: int, rows: seq<Row>, lo: int, hi: int)
    ensures Ascending(Points(offset, rows, lo, hi))
    decreases hi - lo
  {
    hide OfDay, TotalsOf;
    if lo <= hi {
      PointsAscend(offset, rows, lo, hi - 1);
      EarlierPoints(offset, rows, lo, hi - 1);
    }
  }

  /** Every day on which anything was ever logged. */
  function AllDays(s: State): seq<Point> {
    GroupedByDay(s.offset, s.all, DayStart(s.offset, 0))
  }

  /** Lifetime statistics read the day table and today's rows, and are those of all rows ever logged. */
  method LifetimeOf(s: State, now: int) returns (st: Stat)
    requires UpToDate(s, Today(s, now))
    ensures st.totalTokens == TotalsOf(s.all).tokens && IsLongest(s.all, st.maxDurationMs)
    ensures var days := AllDays(s);
            st.activeDays == |days| && IsPeak(days, st.peakDay, st.peakDayTokens) && IsLongestRun(days, st.maxStreak)
    ensures var days := AllDays(s);
            if days != [] && (days[|days| - 1].day == Today(s, now) || days[|days| - 1].day == Today(s, now) - 1)
            then IsLastRun(days, st.currentStreak) else st.currentStreak == 0
  {
    hide UpToDate, IsLongestRun, IsLastRun, IsPeak, IsLongest, ListDays, Points, LastDay, Since, SumOf, TotalsOf;
    var today := DayBucketOf(s.offset, now);
    var listed := ListDays(s.usage, FirstDay(0), today - 1) + GroupedByDay(s.offset, s.raw, DayStart(s.offset, today));
    TodayIsPositive(s, now);
    DaysThenTodayIsExact(s, 0, now);
    GroupedAscends(s.offset, s.all, DayStart(s.offset, 0));
    AllDaysAddUp(s, Today(s, now));
    TotalsHaveTheLongest(s.all);
    st := LifetimeFromDays(listed, today);
  }

  lemma AllDaysAddUp(s: State, today: int)
    requires UpToDate(s, today)
    ensures SumOf(AllDays(s)) == TotalsOf(s.all)
  {
    hide NoStray, SealedTo, SumOf, TotalsOf, Points, Plus, LastDay;
    var last := LastDay(s.offset, s.all, -1);
    GroupedIsPoints(s.offset, s.all, 0, last);
    PointsAddUp(s.offset, s.all, 0, last);
    SinceTheBeginning(s.all, DayStart(s.offset, 0));
    NothingSince(s, last);
    NothingAdds(SumOf(AllDays(s)));
  }

  lemma NothingSince(s: State, last: int)
    requires (forall r :: r in s.all ==> r.at + s.offset >= 0) && last == LastDay(s.offset, s.all, -1)
    ensures CostSince(s.all, DayStart(s.offset, last + 1)) == NOTHING
  {
    hide LastDay;
    forall r | r in s.all
      ensures r.at < DayStart(s.offset, last + 1)
    {
      BucketAndRangeAreInverse(s.offset, r.at);
    }
    NoneSince(s.all, DayStart(s.offset, last + 1));
  }

  lemma {:induction false} NoneSince(rows: seq<Row>, from: int)
    requires forall r :: r in rows ==> r.at < from
    ensures Since(rows, from) == []
  {
    if rows != [] {
      assert forall r :: r in rows[..|rows| - 1] ==> r in rows;
      NoneSince(rows[..|rows| - 1], from);
    }
  }

  lemma {:induction false} TotalsHaveTheLongest(rows: seq<Row>)
    ensures IsLongest(rows, TotalsOf(rows).maxMs)
  {
    if rows != [] {
      TotalsHaveTheLongest(rows[..|rows| - 1]);
      LongestSnoc(rows, TotalsOf(rows[..|rows| - 1]).maxMs);
    }
  }

  lemma LongestSnoc(rows: seq<Row>, ms: nat)
    requires rows != [] && IsLongest(rows[..|rows| - 1], ms)
    ensures var r := rows[|rows| - 1];
            IsLongest(rows, if !r.failed && r.durationMs > ms then r.durationMs else ms)
  {
    var init := rows[..|rows| - 1];
    assert forall i :: 0 <= i < |init| ==> init[i] == rows[i];
  }

  lemma TodayIsPositive(s: State, now: int)
    requires UpToDate(s, Today(s, now))
    ensures Today(s, now) > 0
  {
    hide NoStray, SealedTo;
  }

  lemma GroupedAscends(offset: int, rows: seq<Row>, since: int)
    ensures Ascending(GroupedByDay(offset, rows, since))
  {
    hide Points;
    var kept, first := Since(rows, since), DayBucketOf(offset, since);
    PointsAscend(offset, kept, first, LastDay(offset, kept, first - 1));
  }
}
