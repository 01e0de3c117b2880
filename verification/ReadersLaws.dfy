/** What the statistics add up, and which days they cover, said without the functions that read them. */
module ReadersLaws {
  import opened DayBucket
  import opened Folds
  import opened Rollup
  import opened RollupLaws
  import opened RollupLimits
  import opened Readers
  import M = ModelUsage

  /** Totals count every request and its tokens, cached tokens and cost, and errors and the longest duration as the table does. */
  lemma TotalsAreSums(rows: seq<Row>)
    ensures var t := TotalsOf(rows);
            && t.requests == |rows| && t.errors == |Filter(Failed(), rows)|
            && t.tokens == Folds.SumOf(Map(Prompts(), rows)) + Folds.SumOf(Map(Completions(), rows))
            && t.cached == Folds.SumOf(Map(Cached(), rows)) && t.cost == SumOfReals(Map(CostsOf(), rows))
            && IsLongest(rows, t.maxMs)
  {
    SummaryAddsUp(rows);
    ColumnsAreSums(rows);
    LongestIsOfASuccess(rows);
  }

  /** A model's window counts its own requests, tokens and cached tokens. */
  lemma WindowsAreSums(rows: seq<Row>, m: string)
    ensures var w, s := M.Use(rows, m), Summary(OfModel(rows, m));
            w.requests == s.requests && w.tokens == s.prompt + s.completion && w.cached == s.cached
  {
    hide M.Use, OfModel, Summary;
    M.ModelRowAddsUp(0, rows, m);
  }

  /** The grouped query lists each day that has rows since the moment, with the totals of those rows. */
  lemma {:induction false} PointsAreDays(offset: int, rows: seq<Row>, lo: int, hi: int, p: Point)
    ensures p in Points(offset, rows, lo, hi) <==>
            lo <= p.day <= hi && OfDay(offset, rows, p.day) != [] && p.totals == TotalsOf(OfDay(offset, rows, p.day))
    decreases hi - lo
  {
    if lo <= hi {
      PointsAreDays(offset, rows, lo, hi - 1, p);
    }
  }

  /** A trend over 1 to 400 days covers exactly those up to today; other settings mean 7 or 400. */
  lemma TrendCoversItsDays(s: State, days: int, now: int)
    requires UpToDate(s, Today(s, now))
    ensures 1 <= days <= 400 ==> TrendByDay(s, days, now) == GroupedByDay(s.offset, s.all, DayStart(s.offset, Today(s, now) - days + 1))
    ensures days <= 0 ==> TrendByDay(s, days, now) == TrendByDay(s, 7, now)
    ensures days > 400 ==> TrendByDay(s, days, now) == TrendByDay(s, 400, now)
  {
    TrendByDayIsExact(s, days, now);
  }
}
