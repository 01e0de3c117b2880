/** What a rebuild of a range, a start and the aggregate columns mean, said without the functions that compute them. */
module RollupLaws {
  import opened Common
  import opened DayBucket
  import opened Folds
  import opened Rollup
  import opened RollupLimits

  // ---------- rebuilding a range ----------

  lemma {:induction false} RebuiltDaysKeepOtherModels(s: State, first: int, last: int, day: int)
    requires !(first <= day <= last)
    ensures OnlyDay(RebuiltDays(s, first, last).models, day) == OnlyDay(s.models, day)
    decreases last - first
  {
    if first <= last {
      var before := RebuiltDays(s, first, last - 1);
      RebuiltDaysKeepLog(s, first, last - 1);
      RebuiltDaysKeepOtherModels(s, first, last - 1, day);
      hide OnlyDay, OfDay, GroupByModel, WithoutDay;
      if OfDay(before.offset, before.raw, last) != [] {
        RebuildReplacesOneDay(before, last, day);
      }
    }
  }

  lemma WholeDaySeals(s: State, day: int)
    requires Retained(s) && NoStray(s) && s.cut <= DayStart(s.offset, day)
    ensures SealsOnRebuild(s, day)
  {
    hide OnlyDay, Summary, GroupByModel;
    OfDaySince(s.offset, s.all, s.cut, day);
    hide OfDay;
    if OfDay(s.offset, s.raw, day) == [] {
      assert day !in s.usage && OnlyDay(s.models, day) == [];
    }
  }

  /** Every day from the first to the last one that a range touches, whole in the log, is right after an allowed rebuild of
      it. Up to 400 days further no other day's rows in the tables change; beyond that every day is rebuilt. */
  lemma RangeIsRebuilt(s: State, start: int, end: int, now: int, day: int)
    requires Inv(s) && Allowed(s, RebuildRange(start, end, now))
    ensures var s' := Step(s, RebuildRange(start, end, now));
            var first := DayBucketOf(s.offset, start);
            var last := if DayBucketOf(s.offset, end) < first then first else DayBucketOf(s.offset, end);
            && (first <= day <= last && s.cut <= DayStart(s.offset, day) ==> Sealed(s', day))
            && (last - first <= 400 && !(first <= day <= last) ==>
                  && (day in s'.usage <==> day in s.usage) && (day in s.usage ==> s'.usage[day] == s.usage[day])
                  && OnlyDay(s'.models, day) == OnlyDay(s.models, day))
            && (last - first > 400 ==> Sealed(s', day))
  {
    var from, to := DayBucketOf(s.offset, start), DayBucketOf(s.offset, if end < start then start else end);
    LaterBucket(s.offset, start, end);
    hide Sealed, OnlyDay, OfDay, RebuiltDays, NoStray, SealedTo, DayBucketOf, Backfilled, Summary;
    if to - from > MAX_REBUILD_DAYS {
      BackfillSeals(s, day);
      SealReadsTables(Backfilled(s), RebuiltAll(s, now), day);
    } else {
      var rebuilt := RebuiltDays(s, from, to);
      SealReadsTables(rebuilt, RebuiltRange(s, start, end, now), day);
      RebuiltDaysSealedExactly(s, from, to, day);
      RebuiltDaysShow(s, from, to, day);
      if from <= day <= to {
        if s.cut <= DayStart(s.offset, day) {
          WholeDaySeals(s, day);
        }
      } else {
        RebuiltDaysKeepOtherModels(s, from, to, day);
      }
    }
  }

  lemma LaterBucket(offset: int, start: int, end: int)
    ensures var first, last := DayBucketOf(offset, start), DayBucketOf(offset, end);
            DayBucketOf(offset, if end < start then start else end) == if last < first then first else last
  {
  }

  /** The first start, with no watermark, makes every day right and sets the watermark two days back; a later one does nothing. */
  lemma FirstStartRebuildsEverything(s: State, now: int, day: int)
    requires Inv(s) && Allowed(s, Boot(now))
    ensures var s' := Step(s, Boot(now));
            if s.watermark > 0 then s' == s else Sealed(s', day) && s'.watermark == Today(s, now) - 2
  {
    hide Backfilled, Sealed;
    if s.watermark <= 0 {
      BackfillSeals(s, day);
      SealReadsTables(Backfilled(s), RebuiltAll(s, now), day);
    }
  }

  /** A tick seals the days up to the day before yesterday, and a setting that is not positive keeps 90 days. */
  lemma DefaultsAre(s: State, now: int, maxDays: int)
    requires Inv(s) && now >= s.clock
    ensures Ticked(s, now).watermark == Today(s, now) - 2
    ensures maxDays <= 0 ==> Cutoff(now, maxDays) == now - 90 * 86400
  {
    TickSeals(s, now);
  }

  // ---------- the log queries ----------

  /** The queries select rows by the times of a day, from a moment on, and by model, and keep their order. */
  lemma {:induction false} RowsAreSelected(offset: int, rows: seq<Row>, day: int, from: int, model: string)
    ensures OfDay(offset, rows, day) == Filter((r: Row) => 86400 * day <= r.at + offset < 86400 * (day + 1), rows)
    ensures Since(rows, from) == Filter((r: Row) => from <= r.at, rows)
    ensures OfModel(rows, model) == Filter((r: Row) => r.model == model, rows)
  {
    if rows != [] {
      RowsAreSelected(offset, rows[..|rows| - 1], day, from, model);
    }
  }

  // ---------- the aggregate columns ----------

  function Failed(): Row -> bool { (r: Row) => r.failed }
  function Prompts(): Row -> int { (r: Row) => r.prompt }
  function Completions(): Row -> int { (r: Row) => r.completion }
  function Cached(): Row -> int { (r: Row) => r.cached }
  function CostsOf(): Row -> real { (r: Row) => r.cost }

  /** Every row counts for every column but the errors, which count failed rows, and the longest duration, which is that of a
      successful one. */
  lemma {:induction false} ColumnsAreSums(rows: seq<Row>)
    ensures var s := Summary(rows);
            && s.requests == |rows| && s.errors == |Filter(Failed(), rows)|
            && s.prompt == SumOf(Map(Prompts(), rows)) && s.completion == SumOf(Map(Completions(), rows))
            && s.cached == SumOf(Map(Cached(), rows)) && s.cost == SumOfReals(Map(CostsOf(), rows))
  {
    if rows != [] {
      hide Map;
      ColumnsAreSums(rows[..|rows| - 1]);
      MapFront(Prompts(), rows);
      MapFront(Completions(), rows);
      MapFront(Cached(), rows);
      MapFront(CostsOf(), rows);
    } else {
      assert Map(Prompts(), rows) == [] && Map(Completions(), rows) == [] && Map(Cached(), rows) == [] && Map(CostsOf(), rows) == [];
    }
  }

  lemma {:induction false} LongestIsOfASuccess(rows: seq<Row>)
    ensures IsLongest(rows, Summary(rows).maxMs)
  {
    if rows != [] {
      var init := rows[..|rows| - 1];
      LongestIsOfASuccess(init);
      assert forall i :: 0 <= i < |init| ==> init[i] == rows[i];
      if |rows| == 1 {
        assert init == [];
      }
    }
  }

  // ---------- the model table ----------

  /** The entries of a day, one per model with rows, say what the rows of that model add up to. */
  lemma ModelEntriesSummarise(day: int, rows: seq<Row>, i: nat)
    requires i < |GroupByModel(day, rows)|
    ensures var d := GroupByModel(day, rows)[i];
            var s := Summary(OfModel(rows, d.model));
            && d.day == day && d.requests == s.requests > 0 && d.prompt == s.prompt && d.completion == s.completion
            && d.cached == s.cached && d.cost == s.cost
    ensures forall j :: 0 <= j < |GroupByModel(day, rows)| && j != i ==> GroupByModel(day, rows)[j].model != GroupByModel(day, rows)[i].model
  {
    var m := Models(rows)[i];
    assert m in Models(rows);
    var k :| 0 <= k < |rows| && rows[k].model == m;
    OfModelHas(rows, m, rows[k]);
  }

  lemma {:induction false} OfModelHas(rows: seq<Row>, m: string, r: Row)
    ensures r in OfModel(rows, m) <==> r in rows && r.model == m
  {
    if rows != [] {
      var init, last := rows[..|rows| - 1], rows[|rows| - 1];
      OfModelHas(init, m, r);
      assert init + [last] == rows;
      InSnoc(init, last);
      InSnoc(OfModel(init, m), last);
    }
  }
}
