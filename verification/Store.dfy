/** The store, the aggregation service and the retention task as the programs that take the roll-up's steps. */
module Store {
  import opened DayBucket
  import opened Rollup

  const DEFAULT_BATCH := 1000

  function CountBefore(rows: seq<Row>, cutoff: int): (n: nat)
    ensures n <= |rows|
  {
    if rows == [] then 0
    else CountBefore(rows[..|rows| - 1], cutoff) + if rows[|rows| - 1].at < cutoff then 1 else 0
  }

  /** `after` is `before` without `n` of its rows from before the cutoff. */
  predicate Dropped(before: seq<Row>, after: seq<Row>, cutoff: int, n: nat) {
    if before == [] then after == [] && n == 0
    else
      var init, last := before[..|before| - 1], before[|before| - 1];
      || (after != [] && after[|after| - 1] == last && Dropped(init, after[..|after| - 1], cutoff, n))
      || (last.at < cutoff && n > 0 && Dropped(init, after, cutoff, n - 1))
  }

  lemma NoneDropped(cutoff: int)
    ensures Dropped([], [], cutoff, 0) && CountBefore([], cutoff) == 0
  {
  }

  lemma OneMoreRow(rows: seq<Row>, cutoff: int, i: nat)
    requires i < |rows|
    ensures rows[..i + 1] == rows[..i] + [rows[i]]
    ensures CountBefore(rows[..i + 1], cutoff) == CountBefore(rows[..i], cutoff) + if rows[i].at < cutoff then 1 else 0
    ensures CountBefore(rows[..i + 1], cutoff) <= CountBefore(rows, cutoff)
  {
    assert rows[..i + 1][..i] == rows[..i];
    CountGrows(rows, cutoff, i + 1);
  }

  lemma KeepOne(before: seq<Row>, after: seq<Row>, cutoff: int, n: nat, r: Row)
    requires Dropped(before, after, cutoff, n)
    ensures Dropped(before + [r], after + [r], cutoff, n)
  {
    assert (before + [r])[..|before|] == before && (after + [r])[..|after|] == after;
  }

  lemma DropOne(before: seq<Row>, after: seq<Row>, cutoff: int, n: nat, r: Row)
    requires Dropped(before, after, cutoff, n) && r.at < cutoff
    ensures Dropped(before + [r], after, cutoff, n + 1)
  {
    assert (before + [r])[..|before|] == before;
  }

  lemma {:induction false} DroppedKeepsTheRest(before: seq<Row>, after: seq<Row>, cutoff: int, n: nat)
    requires Dropped(before, after, cutoff, n)
    ensures Since(after, cutoff) == Since(before, cutoff)
    ensures CountBefore(after, cutoff) == CountBefore(before, cutoff) - n && |after| == |before| - n
  {
    if before != [] {
      var init, last := before[..|before| - 1], before[|before| - 1];
      if last.at < cutoff && n > 0 && Dropped(init, after, cutoff, n - 1) {
        DroppedKeepsTheRest(init, after, cutoff, n - 1);
      } else {
        DroppedKeepsTheRest(init, after[..|after| - 1], cutoff, n);
      }
    }
  }

  lemma {:induction false} NothingBefore(rows: seq<Row>, cutoff: int)
    requires CountBefore(rows, cutoff) == 0
    ensures Since(rows, cutoff) == rows
  {
    if rows != [] {
      NothingBefore(rows[..|rows| - 1], cutoff);
    }
  }

  lemma {:induction false} CountGrows(rows: seq<Row>, cutoff: int, i: nat)
    requires i <= |rows|
    ensures CountBefore(rows[..i], cutoff) <= CountBefore(rows, cutoff)
  {
    if i == |rows| {
      assert rows[..i] == rows;
    } else {
      assert rows[..|rows| - 1][..i] == rows[..i];
      CountGrows(rows[..|rows| - 1], cutoff, i);
    }
  }

  /** request_logs, the two day tables and the stored watermark. */
  class Tables {
    const offset: int
    var raw: seq<Row>
    var usage: map<int, DayStat>
    var models: seq<ModelDay>
    var watermark: int
    ghost var clock: int
    ghost var all: seq<Row>
    ghost var cut: int

    ghost function Contents(): State
      reads this
    {
      State(offset, clock, raw, usage, models, watermark, all, cut)
    }

    constructor (offset: int, ghost clock: int)
      ensures Contents() == Initial(offset, clock)
    {
      this.offset := offset;
      raw, usage, models, watermark := [], map[], [], 0;
      this.clock, all, cut := clock, [], DayStart(offset, 1);
    }

    method Create(row: Row)
      modifies this
      ensures Contents() == Inserted(old(Contents()), row)
    {
      raw := raw + [row];
      all := all + [row];
    }

    /** Delete the day's rows from both tables and insert them again, unless the log has none for the day. */
    method RebuildDay(day: int)
      modifies this`usage, this`models
      ensures Contents() == RebuiltDay(old(Contents()), day)
    {
      var rows := OfDay(offset, raw, day);
      if |rows| == 0 {
        return;
      }
      usage := usage - {day};
      models := WithoutDay(models, day);
      usage := usage[day := Summary(rows)];
      models := models + GroupByModel(day, rows);
    }

    method BackfillAll() returns (n: nat)
      modifies this`usage, this`models
      ensures Contents() == Backfilled(old(Contents())) && n == |Days(offset, raw)|
    {
      var days := Days(offset, raw);
      usage := map day | day in days :: Summary(OfBucket(offset, raw, day));
      models := GroupDays(offset, raw, days);
      n := |days|;
    }

    /** One batch: up to `limit` rows from before the cutoff, picked by the database. */
    method DeleteBefore(cutoff: int, limit: int) returns (n: nat)
      modifies this`raw
      ensures Dropped(old(raw), raw, cutoff, n)
      ensures var most := if limit <= 0 then DEFAULT_BATCH else limit;
              n == if CountBefore(old(raw), cutoff) < most then CountBefore(old(raw), cutoff) else most
    {
      hide Dropped, CountBefore;
      var most := if limit <= 0 then DEFAULT_BATCH else limit;
      var total := CountBefore(raw, cutoff);
      var goal := if total < most then total else most;
      var kept: seq<Row> := [];
      n := 0;
      NoneDropped(cutoff);
      for i := 0 to |raw|
        invariant raw == old(raw)
        invariant Dropped(raw[..i], kept, cutoff, n)
        invariant n <= goal && goal - n <= total - CountBefore(raw[..i], cutoff)
      {
        OneMoreRow(raw, cutoff, i);
        var pick := *;
        if raw[i].at < cutoff && n < goal && (pick || goal - n == total - CountBefore(raw[..i], cutoff)) {
          DropOne(raw[..i], kept, cutoff, n, raw[i]);
          n := n + 1;
        } else {
          KeepOne(raw[..i], kept, cutoff, n, raw[i]);
          kept := kept + [raw[i]];
        }
      }
      assert raw[..|raw|] == raw;
      raw := kept;
    }

    ghost method Note(now: int)
      modifies this`clock
      ensures clock == now
    {
      clock := now;
    }
  }

  class Aggregation {
    const daily: Tables

    constructor (daily: Tables)
      ensures this.daily == daily
    {
      this.daily := daily;
    }

    method RebuildDays(first: int, last: int)
      modifies daily`usage, daily`models
      ensures daily.Contents() == Rollup.RebuiltDays(old(daily.Contents()), first, last)
    {
      hide RebuiltDay;
      var d := first;
      while d <= last
        invariant first <= d && (first <= last ==> d <= last + 1) && (first > last ==> d == first)
        invariant daily.Contents() == Rollup.RebuiltDays(old(daily.Contents()), first, d - 1)
        decreases last - d
      {
        daily.RebuildDay(d);
        d := d + 1;
      }
    }

    method TickOnce(now: int)
      modifies daily
      ensures daily.Contents() == Ticked(old(daily.Contents()), now)
    {
      hide Rollup.RebuiltDays;
      var today := DayBucketOf(daily.offset, now);
      RebuildDays(today - (SEAL_LAG - 1), today);
      var watermark := today - SEAL_LAG;
      if daily.watermark < watermark {
        RebuildDays(daily.watermark + 1, watermark);
        daily.watermark := watermark;
      }
      daily.Note(now);
    }

    method RebuildAll(now: int) returns (days: nat)
      modifies daily
      ensures daily.Contents() == RebuiltAll(old(daily.Contents()), now)
    {
      hide Backfilled, Days;
      days := daily.BackfillAll();
      daily.watermark := DayBucketOf(daily.offset, now) - SEAL_LAG;
      daily.Note(now);
    }

    method EnsureBackfill(now: int)
      modifies daily
      ensures daily.Contents() == Step(old(daily.Contents()), Boot(now))
    {
      if daily.watermark > 0 {
        return;
      }
      var _ := RebuildAll(now);
    }

    method RebuildRange(start: int, end: int, now: int)
      modifies daily
      ensures daily.Contents() == RebuiltRange(old(daily.Contents()), start, end, now)
    {
      var last := if end < start then start else end;
      var fromDay := DayBucketOf(daily.offset, start);
      var toDay := DayBucketOf(daily.offset, last);
      if toDay - fromDay > MAX_REBUILD_DAYS {
        var _ := RebuildAll(now);
        return;
      }
      RebuildDays(fromDay, toDay);
      daily.Note(now);
    }
  }

  class Retention {
    const repo: Tables
    var lastDeleted: nat
    var hasRun: bool

    constructor (repo: Tables)
      ensures this.repo == repo && !hasRun
    {
      this.repo := repo;
      lastDeleted, hasRun := 0, false;
    }

    /** Delete batch after batch until one is not full. */
    method DeleteAllBefore(cutoff: int, batch: int) returns (total: nat)
      requires batch > 0
      modifies repo`raw
      ensures repo.raw == Since(old(repo.raw), cutoff) && total == |old(repo.raw)| - |repo.raw|
    {
      total := 0;
      while true
        invariant Since(repo.raw, cutoff) == Since(old(repo.raw), cutoff)
        invariant total == |old(repo.raw)| - |repo.raw|
        decreases CountBefore(repo.raw, cutoff)
      {
        ghost var before := repo.raw;
        var n := repo.DeleteBefore(cutoff, batch);
        DroppedKeepsTheRest(before, repo.raw, cutoff, n);
        total := total + n;
        if n < batch {
          break;
        }
      }
      NothingBefore(repo.raw, cutoff);
    }

    method Once(now: int, maxDays: int, batchSize: int) returns (deleted: nat)
      modifies this, repo
      ensures repo.Contents() == Step(old(repo.Contents()), Clean(now, maxDays))
      ensures deleted == |old(repo.raw)| - |repo.raw| && lastDeleted == deleted && hasRun
    {
      var days := if maxDays <= 0 then DEFAULT_MAX_DAYS else maxDays;
      var batch := if batchSize <= 0 then DEFAULT_BATCH else batchSize;
      var cutoff := now - days * 86400;
      deleted := DeleteAllBefore(cutoff, batch);
      if cutoff > repo.cut {
        repo.cut := cutoff;
      }
      lastDeleted, hasRun := deleted, true;
    }
  }

  method Apply(db: Tables, aggregation: Aggregation, retention: Retention, op: Op, batchSize: int)
    requires aggregation.daily == db && retention.repo == db
    modifies db, retention
    ensures db.Contents() == Step(old(db.Contents()), op)
  {
    match op
    case Insert(row) => db.Create(row);
    case Tick(now) => aggregation.TickOnce(now);
    case Boot(now) => aggregation.EnsureBackfill(now);
    case Clean(now, maxDays) => var _ := retention.Once(now, maxDays, batchSize);
    case RebuildRange(start, end, now) => aggregation.RebuildRange(start, end, now);
    case RebuildAll(now) => var _ := aggregation.RebuildAll(now);
  }

  /** A server's life: any allowed mix of requests logged, aggregation and retention, on one store. */
  method Serve(offset: int, clock: int, ops: seq<Op>, batchSize: int) returns (db: Tables)
    requires clock + offset >= 2 * 86400 && AllowedRun(Initial(offset, clock), ops)
    ensures db.Contents() == Run(Initial(offset, clock), ops)
    ensures forall day :: day <= db.watermark ==>
              var rows := OfDay(offset, InsertedRows(ops), day);
              if rows == [] then day !in db.usage else day in db.usage && db.usage[day] == Summary(rows)
  {
    hide Step, AllowedRun;
    db := new Tables(offset, clock);
    var aggregation := new Aggregation(db);
    var retention := new Retention(db);
    for i := 0 to |ops|
      invariant fresh(db) && fresh(retention) && aggregation.daily == db && retention.repo == db
      invariant db.Contents() == Run(Initial(offset, clock), ops[..i])
    {
      assert ops[..i + 1][..i] == ops[..i];
      Apply(db, aggregation, retention, ops[i], batchSize);
    }
    assert ops[..|ops|] == ops;
    forall day | day <= db.watermark
      ensures var rows := OfDay(offset, InsertedRows(ops), day);
              if rows == [] then day !in db.usage else day in db.usage && db.usage[day] == Summary(rows)
    {
      SealedDaysSurvive(offset, clock, ops, day);
    }
  }
}
