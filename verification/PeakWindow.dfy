/** Peak and off-peak pricing periods, and the search for the next switch between them. */
module PeakWindow {
  import opened Common

  datatype Period = Peak | OffPeak
  datatype HolidayKind = Ordinary | Holiday | Workday

  /** Minutes of a day, [lo, hi). */
  datatype Span = Span(lo: int, hi: int)

  /** A parsed rule; `days[1]` is Monday and `days[7]` Sunday. */
  datatype Rule = Rule(days: seq<bool>, spans: seq<Span>, skipHoliday: bool, makeupWorkday: bool)

  /** The annotation of each day, by day number. */
  type Calendar = int -> HolidayKind

  datatype Switch = Switch(at: int, to: Period)

  /** nextSwitch looks at the day of the query and the 31 days after it. */
  const HORIZON := 32

  /** What the rule parser guarantees. */
  predicate ValidRule(r: Rule) {
    |r.days| == 8 && r.spans != [] && forall i :: 0 <= i < |r.spans| ==> 0 <= r.spans[i].lo < r.spans[i].hi < 1440
  }

  // Times are seconds on a UTC+8 clock; day 0 is 1 January 1970, a Thursday.

  function DayOf(t: int): int { t / 86400 }

  function MinuteOf(t: int): int { t % 86400 / 60 }

  function WeekdayOf(day: int): (w: int)
    ensures 1 <= w <= 7
  {
    (day + 3) % 7 + 1
  }

  /** Whether the whole day is priced by its spans rather than off-peak throughout. */
  predicate DayCounts(r: Rule, cal: Calendar, day: int)
    requires ValidRule(r)
  {
    !(r.skipHoliday && cal(day) == Holiday) &&
    (r.days[WeekdayOf(day)] || (r.makeupWorkday && cal(day) == Workday))
  }

  predicate InSpans(spans: seq<Span>, minute: int) {
    exists i :: 0 <= i < |spans| && spans[i].lo <= minute < spans[i].hi
  }

  function PeriodAt(r: Rule, cal: Calendar, t: int): Period
    requires ValidRule(r)
  {
    if DayCounts(r, cal, DayOf(t)) && InSpans(r.spans, MinuteOf(t)) then Peak else OffPeak
  }

  method IsPeak(r: Rule, cal: Calendar, t: int) returns (peak: bool)
    requires ValidRule(r)
    ensures peak <==> PeriodAt(r, cal, t) == Peak
  {
    var day := t / 86400;
    if r.skipHoliday && cal(day) == Holiday {
      return false;
    }
    var matched := r.days[(day + 3) % 7 + 1];
    if !matched && r.makeupWorkday && cal(day) == Workday {
      matched := true;
    }
    if !matched {
      return false;
    }
    var minute := t % 86400 / 60;
    for i := 0 to |r.spans|
      invariant forall j :: 0 <= j < i ==> !(r.spans[j].lo <= minute < r.spans[j].hi)
    {
      if minute >= r.spans[i].lo && minute < r.spans[i].hi {
        return true;
      }
    }
    return false;
  }

  /** The first instant of the day after the horizon. */
  function HorizonEnd(from: int): int {
    (DayOf(from) + HORIZON) * 86400
  }

  /** The next switch after `from`: at `at` the period becomes `to`, and nothing changes in between. */
  predicate IsNextSwitch(r: Rule, cal: Calendar, from: int, next: Option<Switch>)
    requires ValidRule(r)
  {
    match next
    case None => forall u :: from <= u < HorizonEnd(from) ==> PeriodAt(r, cal, u) == PeriodAt(r, cal, from)
    case Some(s) =>
      && from < s.at < HorizonEnd(from)
      && PeriodAt(r, cal, s.at) == s.to
      && forall u :: from <= u < s.at ==> PeriodAt(r, cal, u) != s.to
  }

  /** Where the period may change on a day: midnight and the ends of every span. */
  function Boundaries(spans: seq<Span>): (minutes: seq<int>)
    ensures 0 in minutes
    ensures forall s :: s in spans ==> s.lo in minutes && s.hi in minutes
    ensures (forall s :: s in spans ==> 0 <= s.lo < 1440 && 0 <= s.hi < 1440) ==> forall m :: m in minutes ==> 0 <= m < 1440
  {
    if spans == [] then [0]
    else
      var minutes := Boundaries(spans[..|spans| - 1]) + [spans[|spans| - 1].lo, spans[|spans| - 1].hi];
      assert forall s :: s in spans ==> s in spans[..|spans| - 1] || s == spans[|spans| - 1];
      minutes
  }

  predicate Changes(r: Rule, cal: Calendar, t: int)
    requires ValidRule(r)
  {
    PeriodAt(r, cal, t - 1) != PeriodAt(r, cal, t)
  }

  function Instant(day: int, minute: int): int {
    day * 86400 + minute * 60
  }

  lemma DayIs(t: int, day: int, second: int)
    requires t == 86400 * day + second && 0 <= second < 86400
    ensures t / 86400 == day && t % 86400 == second
  {
  }

  lemma MinuteIs(second: int, minute: int, rest: int)
    requires second == 60 * minute + rest && 0 <= rest < 60
    ensures second / 60 == minute
  {
  }

  /** One second earlier is the same minute of the same day, or the minute before, or the day before. */
  lemma OneSecondEarlier(t: int)
    ensures t % 86400 == 0 ==> t == Instant(DayOf(t), 0)
    ensures t % 86400 != 0 ==> DayOf(t - 1) == DayOf(t)
    ensures t % 86400 % 60 != 0 ==> MinuteOf(t - 1) == MinuteOf(t)
    ensures t % 86400 != 0 && t % 86400 % 60 == 0 ==> MinuteOf(t - 1) == MinuteOf(t) - 1 && t == Instant(DayOf(t), MinuteOf(t))
  {
    var day, second := t / 86400, t % 86400;
    var minute, rest := second / 60, second % 60;
    if second != 0 {
      DayIs(t - 1, day, second - 1);
      if rest != 0 {
        MinuteIs(second - 1, minute, rest - 1);
      } else {
        MinuteIs(second - 1, minute - 1, 59);
      }
    }
  }

  lemma SpansChangeAtTheirEnds(spans: seq<Span>, m: int)
    requires InSpans(spans, m - 1) != InSpans(spans, m)
    ensures m in Boundaries(spans)
  {
    if InSpans(spans, m) {
      var i :| 0 <= i < |spans| && spans[i].lo <= m < spans[i].hi;
      assert spans[i] in spans && m == spans[i].lo;
    } else {
      var i :| 0 <= i < |spans| && spans[i].lo <= m - 1 < spans[i].hi;
      assert spans[i] in spans && m == spans[i].hi;
    }
  }

  /** The period changes only on a boundary of its own day. */
  lemma ChangesOnBoundaries(r: Rule, cal: Calendar, t: int) returns (m: int)
    requires ValidRule(r) && Changes(r, cal, t)
    ensures m in Boundaries(r.spans) && t == Instant(DayOf(t), m)
  {
    OneSecondEarlier(t);
    if t % 86400 == 0 {
      m := 0;
    } else {
      m := MinuteOf(t);
      SpansChangeAtTheirEnds(r.spans, m);
    }
  }

  lemma {:induction false} NoChangeIsConstant(r: Rule, cal: Calendar, a: int, b: int)
    requires ValidRule(r) && a <= b
    requires forall t :: a < t <= b ==> !Changes(r, cal, t)
    ensures PeriodAt(r, cal, b) == PeriodAt(r, cal, a)
    decreases b - a
  {
    if a < b {
      assert !Changes(r, cal, b);
      NoChangeIsConstant(r, cal, a, b - 1);
    }
  }

  /** `best`, if any, is a change between `from` and the end of the horizon. */
  predicate IsChange(r: Rule, cal: Calendar, from: int, best: Option<Switch>)
    requires ValidRule(r)
  {
    best.Some? ==> && from < best.value.at < HorizonEnd(from)
                   && Changes(r, cal, best.value.at)
                   && PeriodAt(r, cal, best.value.at) == best.value.to
  }

  /** The instant `at` is no change after `from` that `best` misses. */
  predicate NotMissed(r: Rule, cal: Calendar, from: int, at: int, best: Option<Switch>)
    requires ValidRule(r)
  {
    at > from && Changes(r, cal, at) ==> best.Some? && best.value.at <= at
  }

  predicate Scanned(r: Rule, cal: Calendar, from: int, day: int, minutes: seq<int>, best: Option<Switch>)
    requires ValidRule(r)
  {
    forall m :: m in minutes ==> NotMissed(r, cal, from, Instant(day, m), best)
  }

  predicate NoLater(best: Option<Switch>, than: Option<Switch>) {
    than.Some? ==> best.Some? && best.value.at <= than.value.at
  }

  lemma StillNotMissed(r: Rule, cal: Calendar, from: int, at: int, sofar: Option<Switch>, best: Option<Switch>)
    requires ValidRule(r) && NotMissed(r, cal, from, at, sofar) && NoLater(best, sofar)
    ensures NotMissed(r, cal, from, at, best)
  {
  }

  lemma StillScanned(r: Rule, cal: Calendar, from: int, day: int, minutes: seq<int>, sofar: Option<Switch>, best: Option<Switch>)
    requires ValidRule(r) && Scanned(r, cal, from, day, minutes, sofar) && NoLater(best, sofar)
    ensures Scanned(r, cal, from, day, minutes, best)
  {
    forall m | m in minutes
      ensures NotMissed(r, cal, from, Instant(day, m), best)
    {
      StillNotMissed(r, cal, from, Instant(day, m), sofar, best);
    }
  }

  lemma OneMoreScanned(r: Rule, cal: Calendar, from: int, day: int, minutes: seq<int>, k: nat, sofar: Option<Switch>, best: Option<Switch>)
    requires ValidRule(r) && k < |minutes| && Scanned(r, cal, from, day, minutes[..k], sofar) && NoLater(best, sofar)
    requires NotMissed(r, cal, from, Instant(day, minutes[k]), best)
    ensures Scanned(r, cal, from, day, minutes[..k + 1], best)
  {
    StillScanned(r, cal, from, day, minutes[..k], sofar, best);
    assert minutes[..k + 1] == minutes[..k] + [minutes[k]];
  }

  method ListBoundaries(spans: seq<Span>) returns (minutes: seq<int>)
    ensures minutes == Boundaries(spans)
  {
    minutes := [0];
    for i := 0 to |spans|
      invariant minutes == Boundaries(spans[..i])
    {
      assert spans[..i + 1][..i] == spans[..i];
      minutes := minutes + [spans[i].lo, spans[i].hi];
    }
    assert spans[..|spans|] == spans;
  }

  /** Take the candidate `at` if it is a change and earlier than the best so far. */
  method Consider(r: Rule, cal: Calendar, from: int, at: int, sofar: Option<Switch>) returns (best: Option<Switch>)
    requires ValidRule(r) && at < HorizonEnd(from) && IsChange(r, cal, from, sofar)
    ensures IsChange(r, cal, from, best) && NoLater(best, sofar) && NotMissed(r, cal, from, at, best)
  {
    best := sofar;
    if at > from {
      var to := IsPeak(r, cal, at);
      var before := IsPeak(r, cal, at - 1);
      if before != to && (best == None || at < best.value.at) {
        best := Some(Switch(at, if to then Peak else OffPeak));
      }
    }
  }

  lemma InstantsLieInTheirDay(r: Rule, from: int)
    requires ValidRule(r)
    ensures forall day, m :: day < DayOf(from) + HORIZON && m in Boundaries(r.spans) ==> Instant(day, m) < HorizonEnd(from)
  {
    assert forall s :: s in r.spans ==> 0 <= s.lo < 1440 && 0 <= s.hi < 1440;
    forall day, m | day < DayOf(from) + HORIZON && m in Boundaries(r.spans)
      ensures Instant(day, m) < HorizonEnd(from)
    {
      assert m < 1440;
    }
  }

  /** The candidates of one day. */
  method ScanDay(r: Rule, cal: Calendar, from: int, day: int, minutes: seq<int>, sofar: Option<Switch>) returns (best: Option<Switch>)
    requires ValidRule(r) && IsChange(r, cal, from, sofar)
    requires forall m :: m in minutes ==> Instant(day, m) < HorizonEnd(from)
    ensures IsChange(r, cal, from, best) && NoLater(best, sofar) && Scanned(r, cal, from, day, minutes, best)
  {
    best := sofar;
    for k := 0 to |minutes|
      invariant IsChange(r, cal, from, best) && NoLater(best, sofar)
      invariant Scanned(r, cal, from, day, minutes[..k], best)
    {
      assert minutes[k] in minutes;
      ghost var before := best;
      best := Consider(r, cal, from, Instant(day, minutes[k]), best);
      OneMoreScanned(r, cal, from, day, minutes, k, before, best);
    }
    assert minutes[..|minutes|] == minutes;
  }

  predicate DaysScanned(r: Rule, cal: Calendar, from: int, end: int, minutes: seq<int>, best: Option<Switch>)
    requires ValidRule(r)
  {
    forall day :: DayOf(from) <= day < end ==> Scanned(r, cal, from, day, minutes, best)
  }

  lemma OneMoreDay(r: Rule, cal: Calendar, from: int, end: int, minutes: seq<int>, sofar: Option<Switch>, best: Option<Switch>)
    requires ValidRule(r) && DaysScanned(r, cal, from, end, minutes, sofar) && NoLater(best, sofar)
    requires Scanned(r, cal, from, end, minutes, best)
    ensures DaysScanned(r, cal, from, end + 1, minutes, best)
  {
    forall day | DayOf(from) <= day < end
      ensures Scanned(r, cal, from, day, minutes, best)
    {
      StillScanned(r, cal, from, day, minutes, sofar, best);
    }
  }

  method ScanDays(r: Rule, cal: Calendar, from: int, minutes: seq<int>) returns (best: Option<Switch>)
    requires ValidRule(r)
    requires forall day, m :: day < DayOf(from) + HORIZON && m in minutes ==> Instant(day, m) < HorizonEnd(from)
    ensures IsChange(r, cal, from, best) && DaysScanned(r, cal, from, DayOf(from) + HORIZON, minutes, best)
  {
    best := None;
    var today := DayOf(from);
    for offset := 0 to HORIZON
      invariant IsChange(r, cal, from, best) && DaysScanned(r, cal, from, today + offset, minutes, best)
    {
      ghost var before := best;
      best := ScanDay(r, cal, from, today + offset, minutes, best);
      OneMoreDay(r, cal, from, today + offset, minutes, before, best);
    }
  }

  method NextSwitch(r: Rule, cal: Calendar, from: int) returns (best: Option<Switch>)
    requires ValidRule(r)
    ensures IsNextSwitch(r, cal, from, best)
  {
    var minutes := ListBoundaries(r.spans);
    InstantsLieInTheirDay(r, from);
    best := ScanDays(r, cal, from, minutes);
    EarliestIsNext(r, cal, from, best);
  }

  lemma NoChangeIsMissed(r: Rule, cal: Calendar, from: int, best: Option<Switch>, t: int)
    requires ValidRule(r) && DaysScanned(r, cal, from, DayOf(from) + HORIZON, Boundaries(r.spans), best)
    requires from < t < HorizonEnd(from) && Changes(r, cal, t)
    ensures best.Some? && best.value.at <= t
  {
    var m := ChangesOnBoundaries(r, cal, t);
    assert Scanned(r, cal, from, DayOf(t), Boundaries(r.spans), best);
  }

  lemma EarliestIsNext(r: Rule, cal: Calendar, from: int, best: Option<Switch>)
    requires ValidRule(r) && IsChange(r, cal, from, best)
    requires DaysScanned(r, cal, from, DayOf(from) + HORIZON, Boundaries(r.spans), best)
    ensures IsNextSwitch(r, cal, from, best)
  {
    var end := if best.Some? then best.value.at else HorizonEnd(from);
    forall t | from < t < end
      ensures !Changes(r, cal, t)
    {
      if Changes(r, cal, t) {
        NoChangeIsMissed(r, cal, from, best, t);
      }
    }
    ConstantUntil(r, cal, from, end);
  }

  lemma ConstantUntil(r: Rule, cal: Calendar, from: int, end: int)
    requires ValidRule(r)
    requires forall t :: from < t < end ==> !Changes(r, cal, t)
    ensures forall u :: from <= u < end ==> PeriodAt(r, cal, u) == PeriodAt(r, cal, from)
  {
    forall u | from <= u < end
      ensures PeriodAt(r, cal, u) == PeriodAt(r, cal, from)
    {
      NoChangeIsConstant(r, cal, from, u);
    }
  }

  /** There is only one right answer. */
  lemma NextSwitchIsUnique(r: Rule, cal: Calendar, from: int, a: Option<Switch>, b: Option<Switch>)
    requires ValidRule(r) && IsNextSwitch(r, cal, from, a) && IsNextSwitch(r, cal, from, b)
    ensures a == b
  {
    if a.Some? {
      assert PeriodAt(r, cal, from) != a.value.to;
    }
    if b.Some? {
      assert PeriodAt(r, cal, from) != b.value.to;
    }
  }

  /** A span ends before midnight, so every day ends off-peak. */
  lemma DaysEndOffPeak(r: Rule, cal: Calendar, day: int)
    requires ValidRule(r)
    ensures PeriodAt(r, cal, Instant(day, 1439)) == OffPeak
  {
    DayIs(Instant(day, 1439), day, 86340);
    MinuteIs(86340, 1439, 0);
  }

  lemma CountingDaysHaveAPeak(r: Rule, cal: Calendar, day: int)
    requires ValidRule(r) && DayCounts(r, cal, day)
    ensures PeriodAt(r, cal, Instant(day, r.spans[0].lo)) == Peak
  {
    var lo := r.spans[0].lo;
    DayIs(Instant(day, lo), day, 60 * lo);
    MinuteIs(60 * lo, lo, 0);
    assert r.spans[0].lo <= MinuteOf(Instant(day, lo)) < r.spans[0].hi;
  }

  /** That nothing was found means there is no switch at all exactly when no day after the ones looked at counts. */
  lemma NothingFoundIsNoSwitchExactly(r: Rule, cal: Calendar, from: int)
    requires ValidRule(r) && IsNextSwitch(r, cal, from, None)
    ensures (forall u :: from <= u ==> PeriodAt(r, cal, u) == PeriodAt(r, cal, from)) <==>
            (forall day :: DayOf(from) + HORIZON <= day ==> !DayCounts(r, cal, day))
  {
    hide DayCounts, InSpans;
    DaysEndOffPeak(r, cal, DayOf(from) + HORIZON - 1);
    assert PeriodAt(r, cal, from) == OffPeak by {
      var last := Instant(DayOf(from) + HORIZON - 1, 1439);
      assert from <= last < HorizonEnd(from);
    }
    forall day | DayOf(from) + HORIZON <= day && DayCounts(r, cal, day)
      ensures exists u :: from <= u && PeriodAt(r, cal, u) == Peak
    {
      CountingDaysHaveAPeak(r, cal, day);
      assert from <= Instant(day, r.spans[0].lo);
    }
    forall u | HorizonEnd(from) <= u
      ensures DayOf(from) + HORIZON <= DayOf(u)
    {
    }
  }

  /** In particular with no annotated day from the day of the query on: a later day would count only with its weekday,
      which the days looked at have too. */
  lemma NoSwitchEver(r: Rule, cal: Calendar, from: int)
    requires ValidRule(r) && IsNextSwitch(r, cal, from, None)
    requires forall day :: DayOf(from) <= day ==> cal(day) == Ordinary
    ensures forall u :: from <= u ==> PeriodAt(r, cal, u) == PeriodAt(r, cal, from)
  {
    hide PeriodAt, InSpans, IsNextSwitch;
    NothingFoundIsNoSwitchExactly(r, cal, from);
    forall day | DayOf(from) + HORIZON <= day
      ensures !DayCounts(r, cal, day)
    {
      var seen := DayOf(from) + 1 + (day - DayOf(from) - 1) % 7;
      assert WeekdayOf(seen) == WeekdayOf(day);
      assert cal(seen) == cal(day);
      SeenDaysDoNotCount(r, cal, from, seen);
    }
  }

  lemma SeenDaysDoNotCount(r: Rule, cal: Calendar, from: int, day: int)
    requires ValidRule(r) && IsNextSwitch(r, cal, from, None) && DayOf(from) < day < DayOf(from) + HORIZON
    ensures !DayCounts(r, cal, day)
  {
    hide DayCounts, InSpans, PeriodAt;
    assert from <= Instant(day, 1439) < HorizonEnd(from);
    assert from <= Instant(day, r.spans[0].lo) < HorizonEnd(from);
    DaysEndOffPeak(r, cal, day);
    if DayCounts(r, cal, day) {
      CountingDaysHaveAPeak(r, cal, day);
    }
  }

  /** Otherwise it does not: a holiday longer than the horizon hides a later switch. */
  lemma LongHolidayHidesASwitch()
    ensures var r := Rule([true, true, true, true, true, true, true, true], [Span(0, 720)], true, false);
            var cal: Calendar := day => if 0 <= day < 40 then Holiday else Ordinary;
            ValidRule(r) && IsNextSwitch(r, cal, 0, None) && PeriodAt(r, cal, 40 * 86400) != PeriodAt(r, cal, 0)
  {
    var spans := [Span(0, 720)];
    assert spans[0].lo <= MinuteOf(40 * 86400) < spans[0].hi;
  }
}
