/** Which days and minutes a peak rule covers, said without the functions that decide it. */
module PeakWindowLaws {
  import opened PeakWindow

  /** 1 January 1970 was a Thursday, the fourth day of the week, and Monday follows Sunday. */
  lemma WeekdaysFollow(day: int)
    ensures WeekdayOf(0) == 4
    ensures WeekdayOf(day + 1) == if WeekdayOf(day) == 7 then 1 else WeekdayOf(day) + 1
  {
  }

  /** Day `day` is a `w`-th day of the week. */
  predicate IsWeekday(day: int, w: int) {
    1 <= w <= 7 && (day + 4 - w) % 7 == 0
  }

  lemma OneWeekday(day: int, w: int)
    ensures IsWeekday(day, w) <==> w == WeekdayOf(day)
  {
    var v := (day + 3) % 7 + 1;
    assert (day + 4 - v) % 7 == 0;
    if IsWeekday(day, w) {
      assert (w - v) % 7 == 0;
    }
  }

  /** The second lies in a span, whose ends are minutes: from the first second of `lo` to the last before `hi`. */
  predicate SecondInSpan(spans: seq<Span>, second: int) {
    exists i :: 0 <= i < |spans| && 60 * spans[i].lo <= second < 60 * spans[i].hi
  }

  lemma MinutesAndSeconds(spans: seq<Span>, second: int)
    ensures InSpans(spans, second / 60) <==> SecondInSpan(spans, second)
  {
    if i :| 0 <= i < |spans| && spans[i].lo <= second / 60 < spans[i].hi {
      assert 60 * spans[i].lo <= second < 60 * spans[i].hi;
    }
    if i :| 0 <= i < |spans| && 60 * spans[i].lo <= second < 60 * spans[i].hi {
      assert spans[i].lo <= second / 60 < spans[i].hi;
    }
  }

  /** An instant is peak exactly when its second lies in a span and its day is no holiday the rule skips, and is either a
      weekday of the rule or a make-up workday it counts. */
  lemma PeakExactly(r: Rule, cal: Calendar, t: int, day: int, second: int)
    requires ValidRule(r) && t == 86400 * day + second && 0 <= second < 86400
    ensures PeriodAt(r, cal, t) == Peak <==>
            && SecondInSpan(r.spans, second)
            && !(r.skipHoliday && cal(day) == Holiday)
            && ((r.makeupWorkday && cal(day) == Workday) || exists w :: IsWeekday(day, w) && r.days[w])
  {
    DayIs(t, day, second);
    MinutesAndSeconds(r.spans, second);
    hide InSpans, SecondInSpan;
    forall w
      ensures IsWeekday(day, w) <==> w == WeekdayOf(day)
    {
      OneWeekday(day, w);
    }
  }

  /** For a Monday-to-Friday rule, the Saturday and the Monday of the second weekend of 1970. */
  lemma WeekendsAreOffPeak(cal: Calendar)
    requires forall day :: cal(day) == Ordinary
    ensures var r := Rule([false, true, true, true, true, true, false, false], [Span(540, 1080)], false, false);
            && ValidRule(r)
            && PeriodAt(r, cal, 86400 * 9 + 36000) == OffPeak
            && PeriodAt(r, cal, 86400 * 11 + 36000) == Peak
  {
    var spans := [Span(540, 1080)];
    assert spans[0].lo <= 600 < spans[0].hi;
  }
}
