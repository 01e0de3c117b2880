/** The daily roll-up of the request log: day tables, the watermark, retention and their agreement. */
module Rollup {
  import opened DayBucket

  /** The columns of a log row that the roll-up reads. */
  datatype Row = Row(at: int, model: string, failed: bool, prompt: int, completion: int, cached: int, cost: real, durationMs: nat)

  /** A row of daily_usage_stats without its day. */
  datatype DayStat = DayStat(requests: nat, errors: nat, prompt: int, completion: int, cached: int, cost: real, maxMs: nat)

  /** A row of daily_model_stats. */
  datatype ModelDay = ModelDay(day: int, model: string, requests: nat, prompt: int, completion: int, cached: int, cost: real)

  /** `all` is every row ever inserted and `cut` the latest retention cutoff; neither is stored. */
  datatype State = State(offset: int, clock: int, raw: seq<Row>, usage: map<int, DayStat>, models: seq<ModelDay>,
                         watermark: int, all: seq<Row>, cut: int)

  const SEAL_LAG := 2
  const MAX_REBUILD_DAYS := 400
  const DEFAULT_MAX_DAYS := 90

  // ---------- queries over the log ----------

  function OfDay(offset: int, rows: seq<Row>, day: int): seq<Row> {
    if rows == [] then []
    else if InDay(offset, day, rows[|rows| - 1].at) then OfDay(offset, rows[..|rows| - 1], day) + [rows[|rows| - 1]]
    else OfDay(offset, rows[..|rows| - 1], day)
  }

  function Since(rows: seq<Row>, from: int): seq<Row> {
    if rows == [] then []
    else if rows[|rows| - 1].at >= from then Since(rows[..|rows| - 1], from) + [rows[|rows| - 1]]
    else Since(rows[..|rows| - 1], from)
  }

  function OfModel(rows: seq<Row>, model: string): seq<Row> {
    if rows == [] then []
    else if rows[|rows| - 1].model == model then OfModel(rows[..|rows| - 1], model) + [rows[|rows| - 1]]
    else OfModel(rows[..|rows| - 1], model)
  }

  /** The longest duration of the successful requests, and zero without one. */
  predicate IsLongest(rows: seq<Row>, ms: nat) {
    && (forall i :: 0 <= i < |rows| && !rows[i].failed ==> rows[i].durationMs <= ms)
    && (ms == 0 || exists i :: 0 <= i < |rows| && !rows[i].failed && rows[i].durationMs == ms)
  }

  /** The aggregate columns of one day; failed requests count for everything but the longest duration. */
  function Summary(rows: seq<Row>): (s: DayStat)
    ensures s.requests == |rows|
  {
    if rows == [] then DayStat(0, 0, 0, 0, 0, 0.0, 0)
    else
      var r, s := rows[|rows| - 1], Summary(rows[..|rows| - 1]);
      var ms := if r.failed then 0 else r.durationMs;
      DayStat(s.requests + 1, s.errors + (if r.failed then 1 else 0), s.prompt + r.prompt, s.completion + r.completion,
              s.cached + r.cached, s.cost + r.cost, if |rows| == 1 || ms > s.maxMs then ms else s.maxMs)
  }

  /** The models of some rows, each once. */
  function Models(rows: seq<Row>): (models: seq<string>)
    ensures forall m :: m in models <==> exists i :: 0 <= i < |rows| && rows[i].model == m
    ensures forall i, j :: 0 <= i < j < |models| ==> models[i] != models[j]
  {
    if rows == [] then []
    else
      var before, m := Models(rows[..|rows| - 1]), rows[|rows| - 1].model;
      assert forall i :: 0 <= i < |rows| - 1 ==> rows[..|rows| - 1][i] == rows[i];
      if m in before then before else before + [m]
  }

  function ModelRow(day: int, rows: seq<Row>, model: string): ModelDay {
    var s := Summary(OfModel(rows, model));
    ModelDay(day, model, s.requests, s.prompt, s.completion, s.cached, s.cost)
  }

  /** One row per model, as the GROUP BY produces them. */
  function GroupByModel(day: int, rows: seq<Row>): seq<ModelDay> {
    var models := Models(rows);
    seq(|models|, i requires 0 <= i < |models| => ModelRow(day, rows, models[i]))
  }

  function WithoutDay(models: seq<ModelDay>, day: int): seq<ModelDay> {
    if models == [] then []
    else if models[|models| - 1].day != day then WithoutDay(models[..|models| - 1], day) + [models[|models| - 1]]
    else WithoutDay(models[..|models| - 1], day)
  }

  function OnlyDay(models: seq<ModelDay>, day: int): seq<ModelDay> {
    if models == [] then []
    else if models[|models| - 1].day == day then OnlyDay(models[..|models| - 1], day) + [models[|models| - 1]]
    else OnlyDay(models[..|models| - 1], day)
  }

  // ---------- steps ----------

  /** Recompute one day from the rows still there; a day without rows keeps what it has. */
  function RebuiltDay(s: State, day: int): State {
    var rows := OfDay(s.offset, s.raw, day);
    if rows == [] then s
    else s.(usage := s.usage[day := Summary(rows)], models := WithoutDay(s.models, day) + GroupByModel(day, rows))
  }

  function RebuiltDays(s: State, first: int, last: int): State
    decreases last - first
  {
    if first > last then s else RebuiltDay(RebuiltDays(s, first, last - 1), last)
  }

  function Today(s: State, now: int): int {
    DayBucketOf(s.offset, now)
  }

  /** Rebuild the days after the watermark and move it, unless it is already there. */
  function Advanced(s: State, watermark: int): State {
    if s.watermark >= watermark then s
    else RebuiltDays(s, s.watermark + 1, watermark).(watermark := watermark)
  }

  /** Rebuild yesterday and today, then seal the days up to the day before yesterday. */
  function Ticked(s: State, now: int): State {
    var today := Today(s, now);
    Advanced(RebuiltDays(s, today - 1, today), today - SEAL_LAG).(clock := now)
  }

  /** The distinct days of some rows. */
  function Days(offset: int, rows: seq<Row>): seq<int> {
    if rows == [] then []
    else
      var before, d := Days(offset, rows[..|rows| - 1]), DayBucketOf(offset, rows[|rows| - 1].at);
      if d in before then before else before + [d]
  }

  function OfBucket(offset: int, rows: seq<Row>, day: int): seq<Row> {
    if rows == [] then []
    else if DayBucketOf(offset, rows[|rows| - 1].at) == day then OfBucket(offset, rows[..|rows| - 1], day) + [rows[|rows| - 1]]
    else OfBucket(offset, rows[..|rows| - 1], day)
  }

  function GroupDays(offset: int, rows: seq<Row>, days: seq<int>): seq<ModelDay> {
    if days == [] then []
    else
      var day := days[|days| - 1];
      GroupDays(offset, rows, days[..|days| - 1]) + GroupByModel(day, OfBucket(offset, rows, day))
  }

  /** Empty both tables and aggregate every row still there, grouped by its day. */
  function Backfilled(s: State): State {
    var days := Days(s.offset, s.raw);
    s.(usage := map day | day in days :: Summary(OfBucket(s.offset, s.raw, day)), models := GroupDays(s.offset, s.raw, days))
  }

  function RebuiltAll(s: State, now: int): State {
    Backfilled(s).(watermark := Today(s, now) - SEAL_LAG, clock := now)
  }

  function RebuiltRange(s: State, from: int, to: int, now: int): State {
    var fromDay := DayBucketOf(s.offset, from);
    var toDay := DayBucketOf(s.offset, if to < from then from else to);
    if toDay - fromDay > MAX_REBUILD_DAYS then RebuiltAll(s, now)
    else RebuiltDays(s, fromDay, toDay).(clock := now)
  }

  function Inserted(s: State, row: Row): State {
    s.(raw := s.raw + [row], all := s.all + [row])
  }

  /** The days of log a cleanup keeps; a setting that is not positive means the default. */
  function KeptDays(maxDays: int): int {
    if maxDays <= 0 then DEFAULT_MAX_DAYS else maxDays
  }

  /** The cutoff of a cleanup at `now`: a moment of the day, not its start. */
  function Cutoff(now: int, maxDays: int): int {
    now - KeptDays(maxDays) * 86400
  }

  function Cleaned(s: State, cutoff: int): State {
    s.(raw := Since(s.raw, cutoff), cut := if cutoff > s.cut then cutoff else s.cut)
  }

  // ---------- what every run keeps ----------

  /** The tables say about `day` what all rows ever inserted for it say. */
  predicate Sealed(s: State, day: int) {
    var rows := OfDay(s.offset, s.all, day);
    if rows == [] then day !in s.usage && OnlyDay(s.models, day) == []
    else day in s.usage && s.usage[day] == Summary(rows) && OnlyDay(s.models, day) == GroupByModel(day, rows)
  }

  /** The tables only have rows for days something was inserted for. */
  ghost predicate NoStray(s: State) {
    forall day :: day in s.usage || OnlyDay(s.models, day) != [] ==> OfDay(s.offset, s.all, day) != []
  }

  /** Every day up to `last` is sealed. */
  ghost predicate SealedTo(s: State, last: int) {
    forall day :: day <= last ==> Sealed(s, day)
  }

  /** What was sealed in `s` is sealed in `s'`. */
  ghost predicate KeepsSeals(s: State, s': State) {
    forall day :: Sealed(s, day) ==> Sealed(s', day)
  }

  /** Retention has removed exactly the rows before the cutoff. */
  predicate Retained(s: State) {
    s.raw == Since(s.all, s.cut)
  }

  ghost predicate Inv(s: State) {
    && Retained(s) && NoStray(s)
    && s.cut <= DayStart(s.offset, s.watermark + 1)
    && 0 <= s.watermark <= Today(s, s.clock) - SEAL_LAG && s.clock + s.offset >= 0
    && (forall r :: r in s.all ==> r.at + s.offset >= 0)
    && SealedTo(s, s.watermark)
  }

  /** A fresh store at a time from 3 January 1970 on; rows before day 1 never appear. */
  function Initial(offset: int, clock: int): State {
    State(offset, clock, [], map[], [], 0, [], DayStart(offset, 1))
  }

  lemma {:induction false} OfDaySince(offset: int, rows: seq<Row>, cut: int, day: int)
    ensures DayStart(offset, day) >= cut ==> OfDay(offset, Since(rows, cut), day) == OfDay(offset, rows, day)
    ensures DayStart(offset, day + 1) <= cut ==> OfDay(offset, Since(rows, cut), day) == []
  {
    if rows != [] {
      var init, last := rows[..|rows| - 1], rows[|rows| - 1];
      OfDaySince(offset, init, cut, day);
      if last.at >= cut {
        assert (Since(init, cut) + [last])[..|Since(init, cut)|] == Since(init, cut);
      }
    }
  }

  lemma {:induction false} SinceSince(rows: seq<Row>, a: int, b: int)
    ensures Since(Since(rows, a), b) == Since(rows, if a > b then a else b)
  {
    if rows != [] {
      var init, last := rows[..|rows| - 1], rows[|rows| - 1];
      SinceSince(init, a, b);
      if last.at >= a {
        assert (Since(init, a) + [last])[..|Since(init, a)|] == Since(init, a);
      }
    }
  }

  lemma {:induction false} OnlyDayConcat(a: seq<ModelDay>, b: seq<ModelDay>, day: int)
    ensures OnlyDay(a + b, day) == OnlyDay(a, day) + OnlyDay(b, day)
  {
    if b == [] {
      assert a + b == a;
    } else {
      assert (a + b)[..|a + b| - 1] == a + b[..|b| - 1];
      OnlyDayConcat(a, b[..|b| - 1], day);
    }
  }

  lemma {:induction false} OnlyDayWithoutDay(ms: seq<ModelDay>, day: int, other: int)
    ensures OnlyDay(WithoutDay(ms, day), other) == if other == day then [] else OnlyDay(ms, other)
  {
    if ms != [] {
      var init, last := ms[..|ms| - 1], ms[|ms| - 1];
      OnlyDayWithoutDay(init, day, other);
      if last.day != day {
        OnlyDayConcat(WithoutDay(init, day), [last], other);
        assert OnlyDay([last], other) == if last.day == other then [last] else [];
      }
    }
  }

  lemma {:induction false} OnlyDayOfOneDay(ms: seq<ModelDay>, day: int, other: int)
    requires forall m :: m in ms ==> m.day == day
    ensures OnlyDay(ms, other) == if other == day then ms else []
  {
    if ms != [] {
      assert forall m :: m in ms[..|ms| - 1] ==> m in ms;
      OnlyDayOfOneDay(ms[..|ms| - 1], day, other);
      assert ms[|ms| - 1] in ms;
    }
  }

  lemma GroupIsOfItsDay(day: int, rows: seq<Row>, other: int)
    ensures OnlyDay(GroupByModel(day, rows), other) == if other == day then GroupByModel(day, rows) else []
  {
    assert forall m :: m in GroupByModel(day, rows) ==> m.day == day;
    OnlyDayOfOneDay(GroupByModel(day, rows), day, other);
  }

  lemma OneMoreGroup(before: seq<ModelDay>, day: int, rows: seq<Row>, other: int)
    ensures OnlyDay(before + GroupByModel(day, rows), other) ==
            if other == day then OnlyDay(before, other) + GroupByModel(day, rows) else OnlyDay(before, other)
  {
    OnlyDayConcat(before, GroupByModel(day, rows), other);
    GroupIsOfItsDay(day, rows, other);
  }

  /** Rebuilding a day replaces that day's entries and no other's. */
  lemma RebuildReplacesOneDay(s: State, day: int, other: int)
    requires OfDay(s.offset, s.raw, day) != []
    ensures var s' := RebuiltDay(s, day);
            OnlyDay(s'.models, other) ==
            if other == day then GroupByModel(day, OfDay(s.offset, s.raw, day)) else OnlyDay(s.models, other)
  {
    OneMoreGroup(WithoutDay(s.models, day), day, OfDay(s.offset, s.raw, day), other);
    OnlyDayWithoutDay(s.models, day, other);
  }

  predicate SameLog(s: State, s': State) {
    s'.offset == s.offset && s'.raw == s.raw && s'.all == s.all && s'.cut == s.cut
  }

  /** Whether rebuilding `day` is safe: all of its rows are still there, or none. */
  predicate Whole(s: State, day: int) {
    s.cut <= DayStart(s.offset, day) || DayStart(s.offset, day + 1) <= s.cut
  }

  lemma RebuildDaySeals(s: State, day: int)
    requires Retained(s) && NoStray(s) && Whole(s, day)
    ensures var s' := RebuiltDay(s, day);
            && SameLog(s, s') && s'.watermark == s.watermark && s'.clock == s.clock && NoStray(s')
            && (s.cut <= DayStart(s.offset, day) ==> Sealed(s', day))
            && KeepsSeals(s, s')
  {
    var s' := RebuiltDay(s, day);
    OfDaySince(s.offset, s.all, s.cut, day);
    if OfDay(s.offset, s.raw, day) != [] {
      forall d
        ensures OnlyDay(s'.models, d) == if d == day then GroupByModel(day, OfDay(s.offset, s.raw, day)) else OnlyDay(s.models, d)
      {
        RebuildReplacesOneDay(s, day, d);
      }
    }
  }

  /** Rebuilding the days is safe. */
  ghost predicate WholeDays(s: State, first: int, last: int) {
    forall day :: first <= day <= last ==> Whole(s, day)
  }

  /** The days whose rows are all there are sealed. */
  ghost predicate SealedDays(s: State, first: int, last: int) {
    forall day :: first <= day <= last && s.cut <= DayStart(s.offset, day) ==> Sealed(s, day)
  }

  lemma {:induction false} RebuildDaysSeal(s: State, first: int, last: int)
    requires Retained(s) && NoStray(s) && WholeDays(s, first, last)
    ensures var s' := RebuiltDays(s, first, last);
            && SameLog(s, s') && s'.watermark == s.watermark && s'.clock == s.clock && NoStray(s')
            && SealedDays(s', first, last) && KeepsSeals(s, s')
    decreases last - first
  {
    if first > last {
      SealsAreKept(s);
    } else {
      WholeOfLast(s, first, last);
      hide Sealed, KeepsSeals, NoStray, WholeDays, SealedDays, RebuiltDay, Since, Whole;
      RebuildDaysSeal(s, first, last - 1);
      var s1 := RebuiltDays(s, first, last - 1);
      WholeIsOfTheLog(s, s1, last);
      RebuildDaySeals(s1, last);
      KeepsSealsTwice(s, s1, RebuiltDay(s1, last));
      SealedOneMoreDay(s1, RebuiltDay(s1, last), first, last);
    }
  }

  lemma WholeOfLast(s: State, first: int, last: int)
    requires WholeDays(s, first, last) && first <= last
    ensures Whole(s, last) && WholeDays(s, first, last - 1)
  {
  }

  lemma WholeIsOfTheLog(s: State, s1: State, day: int)
    requires Whole(s, day) && SameLog(s, s1)
    ensures Whole(s1, day)
  {
  }

  lemma SealedOneMoreDay(s1: State, s2: State, first: int, last: int)
    requires KeepsSeals(s1, s2) && SealedDays(s1, first, last - 1) && SameLog(s1, s2)
    requires s1.cut <= DayStart(s1.offset, last) ==> Sealed(s2, last)
    ensures SealedDays(s2, first, last)
  {
    forall day | first <= day <= last && s2.cut <= DayStart(s2.offset, day)
      ensures Sealed(s2, day)
    {
      assert day < last ==> Sealed(s1, day);
    }
  }

  lemma KeepsSealsTwice(s: State, s1: State, s2: State)
    requires KeepsSeals(s, s1) && KeepsSeals(s1, s2)
    ensures KeepsSeals(s, s2)
  {
    forall day | Sealed(s, day)
      ensures Sealed(s2, day)
    {
      assert Sealed(s1, day);
    }
  }

  // ---------- every operation ----------

  datatype Op =
    | Insert(row: Row)
    | Tick(now: int)
    | Boot(now: int)
    | Clean(now: int, maxDays: int)
    | RebuildRange(start: int, end: int, now: int)
    | RebuildAll(now: int)

  function Step(s: State, op: Op): State {
    match op
    case Insert(row) => Inserted(s, row)
    case Tick(now) => Ticked(s, now)
    case Boot(now) => if s.watermark > 0 then s else RebuiltAll(s, now)
    case Clean(now, maxDays) => Cleaned(s, Cutoff(now, maxDays))
    case RebuildRange(start, end, now) => RebuiltRange(s, start, end, now)
    case RebuildAll(now) => RebuiltAll(s, now)
  }

  /** The clock does not go back, rows land after the watermark, retention stops at the end of the watermark
      day, a rebuilt day is whole, and everything is rebuilt only while nothing was removed. */
  predicate Allowed(s: State, op: Op) {
    match op
    case Insert(row) => row.at >= DayStart(s.offset, s.watermark + 1)
    case Tick(now) => now >= s.clock
    case Boot(now) => s.watermark > 0 || (now >= s.clock && s.raw == s.all)
    case Clean(now, maxDays) => Cutoff(now, maxDays) <= DayStart(s.offset, s.watermark + 1)
    case RebuildRange(start, end, now) =>
      var first := DayBucketOf(s.offset, start);
      var last := DayBucketOf(s.offset, if end < start then start else end);
      now >= s.clock &&
      if last - first > MAX_REBUILD_DAYS then s.raw == s.all else forall day :: first <= day <= last ==> Whole(s, day)
    case RebuildAll(now) => now >= s.clock && s.raw == s.all
  }

  lemma InsertKeepsInv(s: State, row: Row)
    requires Inv(s) && row.at >= DayStart(s.offset, s.watermark + 1)
    ensures Inv(Inserted(s, row))
  {
    var s' := Inserted(s, row);
    assert s'.all[..|s.all|] == s.all;
    forall day
      ensures day <= s.watermark ==> OfDay(s.offset, s'.all, day) == OfDay(s.offset, s.all, day)
      ensures OfDay(s.offset, s.all, day) != [] ==> OfDay(s.offset, s'.all, day) != []
      ensures day <= s.watermark ==> Sealed(s', day)
    {
      assert day <= s.watermark ==> Sealed(s, day);
    }
  }

  lemma StillSealed(s: State, s': State, last: int)
    requires KeepsSeals(s, s') && SealedTo(s, last)
    ensures SealedTo(s', last)
  {
    forall day | day <= last
      ensures Sealed(s', day)
    {
      assert Sealed(s, day);
    }
  }

  lemma SealedToEarlier(s: State, last: int, earlier: int)
    requires SealedTo(s, last) && earlier <= last
    ensures SealedTo(s, earlier)
  {
  }

  /** Only the log and the tables decide what is sealed. */
  lemma SealsReadTables(s: State, s': State, last: int)
    requires SealedTo(s, last) && NoStray(s)
    requires s'.offset == s.offset && s'.all == s.all && s'.usage == s.usage && s'.models == s.models
    ensures SealedTo(s', last) && NoStray(s')
  {
    forall day | day <= last
      ensures Sealed(s', day)
    {
      assert Sealed(s, day);
    }
  }

  lemma SealedFrom(s: State, sealed: int, last: int)
    requires SealedTo(s, sealed)
    requires forall day :: sealed + 1 <= day <= last ==> Sealed(s, day)
    ensures SealedTo(s, last)
  {
  }

  lemma WholeFrom(s: State, first: int, last: int)
    requires s.cut <= DayStart(s.offset, first)
    ensures WholeDays(s, first, last)
    ensures forall day :: first <= day <= last ==> s.cut <= DayStart(s.offset, day)
  {
  }

  /** Rebuilding from the day after the sealed ones on seals those days too. */
  lemma RebuildExtendsSeal(s: State, sealed: int, last: int)
    requires Retained(s) && NoStray(s) && s.cut <= DayStart(s.offset, sealed + 1) && SealedTo(s, sealed)
    ensures var s' := RebuiltDays(s, sealed + 1, last);
            && SameLog(s, s') && s'.watermark == s.watermark && s'.clock == s.clock && NoStray(s')
            && KeepsSeals(s, s') && SealedTo(s', last)
  {
    hide Sealed, NoStray, KeepsSeals, SealedTo, RebuiltDays;
    WholeFrom(s, sealed + 1, last);
    RebuildDaysSeal(s, sealed + 1, last);
    StillSealed(s, RebuiltDays(s, sealed + 1, last), sealed);
    SealedFrom(RebuiltDays(s, sealed + 1, last), sealed, last);
  }

  /** Yesterday and today, rebuilt first, stay sealed while the days up to the day before are rebuilt. */
  lemma SealedToToday(s1: State, s2: State, today: int)
    requires KeepsSeals(s1, s2) && Sealed(s1, today - 1) && Sealed(s1, today) && SealedTo(s2, today - SEAL_LAG)
    ensures SealedTo(s2, today)
  {
    assert Sealed(s2, today - 1) && Sealed(s2, today);
    forall day | day <= today
      ensures Sealed(s2, day)
    {
      assert day <= today - SEAL_LAG || day == today - 1 || day == today;
    }
  }

  lemma RecentDaysSeal(s: State, today: int)
    requires Inv(s) && s.watermark <= today - SEAL_LAG
    ensures var s1 := RebuiltDays(s, today - 1, today);
            && SameLog(s, s1) && s1.watermark == s.watermark && s1.clock == s.clock && NoStray(s1)
            && Sealed(s1, today - 1) && Sealed(s1, today) && SealedTo(s1, s.watermark)
  {
    hide Sealed, NoStray, KeepsSeals, SealedTo, RebuiltDays;
    WholeFrom(s, today - 1, today);
    RebuildDaysSeal(s, today - 1, today);
    StillSealed(s, RebuiltDays(s, today - 1, today), s.watermark);
  }

  lemma AdvanceSeals(s: State, today: int)
    requires Retained(s) && NoStray(s) && s.cut <= DayStart(s.offset, s.watermark + 1) && s.watermark <= today - SEAL_LAG
    requires SealedTo(s, s.watermark) && Sealed(s, today - 1) && Sealed(s, today)
    ensures var s' := Advanced(s, today - SEAL_LAG);
            SameLog(s, s') && s'.watermark == today - SEAL_LAG && s'.clock == s.clock && NoStray(s') && SealedTo(s', today)
  {
    hide Sealed, NoStray, KeepsSeals, SealedTo, RebuiltDays;
    if s.watermark == today - SEAL_LAG {
      SealedToToday(s, s, today) by { SealsAreKept(s); }
    } else {
      RebuildExtendsSeal(s, s.watermark, today - SEAL_LAG);
      var s2 := RebuiltDays(s, s.watermark + 1, today - SEAL_LAG);
      SealedToToday(s, s2, today);
      SealsReadTables(s2, Advanced(s, today - SEAL_LAG), today);
    }
  }

  lemma SealsAreKept(s: State)
    ensures KeepsSeals(s, s)
  {
  }

  /** A tick leaves every day up to today sealed, with the watermark at the day before yesterday. */
  lemma TickSeals(s: State, now: int)
    requires Inv(s) && now >= s.clock
    ensures var s' := Ticked(s, now);
            && Inv(s') && SameLog(s, s') && s'.watermark == Today(s, now) - SEAL_LAG && s'.clock == now
            && SealedTo(s', Today(s, now)) && s'.watermark >= s.watermark
  {
    hide Sealed, NoStray, KeepsSeals, SealedTo, RebuiltDays, Advanced;
    var today := Today(s, now);
    assert s.watermark <= today - SEAL_LAG;
    RecentDaysSeal(s, today);
    AdvanceSeals(RebuiltDays(s, today - 1, today), today);
    SealsReadTables(Advanced(RebuiltDays(s, today - 1, today), today - SEAL_LAG), Ticked(s, now), today);
    SealedToEarlier(Ticked(s, now), today, today - SEAL_LAG);
  }

  lemma CleanKeepsInv(s: State, cutoff: int)
    requires Inv(s) && cutoff <= DayStart(s.offset, s.watermark + 1)
    ensures Inv(Cleaned(s, cutoff))
  {
    SinceSince(s.all, s.cut, cutoff);
    forall day | day <= s.watermark
      ensures Sealed(Cleaned(s, cutoff), day)
    {
      assert Sealed(s, day);
    }
  }

  lemma {:induction false} DaysAreDistinct(offset: int, rows: seq<Row>)
    ensures forall i, j :: 0 <= i < j < |Days(offset, rows)| ==> Days(offset, rows)[i] != Days(offset, rows)[j]
  {
    if rows != [] {
      DaysAreDistinct(offset, rows[..|rows| - 1]);
    }
  }

  lemma {:induction false} DaysHaveRows(offset: int, rows: seq<Row>, day: int)
    ensures day in Days(offset, rows) <==> OfBucket(offset, rows, day) != []
  {
    if rows != [] {
      DaysHaveRows(offset, rows[..|rows| - 1], day);
    }
  }

  lemma {:induction false} BucketsAreDays(offset: int, rows: seq<Row>, day: int)
    requires forall r :: r in rows ==> r.at + offset >= 0
    ensures OfBucket(offset, rows, day) == OfDay(offset, rows, day)
  {
    if rows != [] {
      var last := rows[|rows| - 1];
      assert last in rows;
      BucketAndRangeAreInverse(offset, last.at);
      assert DayBucketOf(offset, last.at) == day <==> InDay(offset, day, last.at);
      assert forall r :: r in rows[..|rows| - 1] ==> r in rows;
      BucketsAreDays(offset, rows[..|rows| - 1], day);
    }
  }

  lemma {:induction false} GroupDaysGroup(offset: int, rows: seq<Row>, days: seq<int>, day: int)
    requires forall i, j :: 0 <= i < j < |days| ==> days[i] != days[j]
    ensures OnlyDay(GroupDays(offset, rows, days), day) ==
            if day in days then GroupByModel(day, OfBucket(offset, rows, day)) else []
  {
    hide GroupByModel, OfBucket;
    if days != [] {
      var init, last := days[..|days| - 1], days[|days| - 1];
      GroupDaysGroup(offset, rows, init, day);
      OneMoreGroup(GroupDays(offset, rows, init), last, OfBucket(offset, rows, last), day);
    }
  }

  lemma BackfillSeals(s: State, day: int)
    requires s.raw == s.all && forall r :: r in s.all ==> r.at + s.offset >= 0
    ensures Sealed(Backfilled(s), day)
    ensures day in Backfilled(s).usage || OnlyDay(Backfilled(s).models, day) != [] ==> OfDay(s.offset, s.all, day) != []
  {
    DaysAreDistinct(s.offset, s.raw);
    DaysHaveRows(s.offset, s.raw, day);
    BucketsAreDays(s.offset, s.raw, day);
    GroupDaysGroup(s.offset, s.raw, Days(s.offset, s.raw), day);
  }

  lemma BackfillSealsTo(s: State, last: int)
    requires s.raw == s.all && forall r :: r in s.all ==> r.at + s.offset >= 0
    ensures SealedTo(Backfilled(s), last) && NoStray(Backfilled(s))
  {
    hide Backfilled, OnlyDay, OfDay;
    forall day
      ensures Sealed(Backfilled(s), day)
      ensures day in Backfilled(s).usage || OnlyDay(Backfilled(s).models, day) != [] ==> OfDay(s.offset, s.all, day) != []
    {
      BackfillSeals(s, day);
    }
    BackfillKeepsLog(s);
  }

  lemma BackfillKeepsLog(s: State)
    ensures SameLog(s, Backfilled(s))
  {
  }

  /** While every row is still there a full rebuild seals every day. */
  lemma RebuildAllSeals(s: State, now: int)
    requires Inv(s) && now >= s.clock && s.raw == s.all
    ensures Inv(RebuiltAll(s, now)) && RebuiltAll(s, now).watermark >= s.watermark
  {
    hide Sealed, NoStray, SealedTo;
    BackfillSealsTo(s, Today(s, now) - SEAL_LAG);
    SealsReadTables(Backfilled(s), RebuiltAll(s, now), Today(s, now) - SEAL_LAG);
  }

  lemma RebuildRangeKeepsInv(s: State, start: int, end: int, now: int)
    requires Inv(s) && Allowed(s, RebuildRange(start, end, now))
    ensures Inv(RebuiltRange(s, start, end, now)) && RebuiltRange(s, start, end, now).watermark >= s.watermark
  {
    var first := DayBucketOf(s.offset, start);
    var last := DayBucketOf(s.offset, if end < start then start else end);
    if last - first > MAX_REBUILD_DAYS {
      RebuildAllSeals(s, now);
    } else {
      RebuildDaysSeal(s, first, last);
      StillSealed(s, RebuiltDays(s, first, last), s.watermark);
      var s' := RebuiltRange(s, start, end, now);
      forall day | day <= s.watermark
        ensures Sealed(s', day)
      {
        assert Sealed(RebuiltDays(s, first, last), day);
      }
    }
  }

  lemma StepKeepsInv(s: State, op: Op)
    requires Inv(s) && Allowed(s, op)
    ensures Inv(Step(s, op)) && Step(s, op).watermark >= s.watermark
  {
    match op
    case Insert(row) => InsertKeepsInv(s, row);
    case Tick(now) => TickSeals(s, now);
    case Boot(now) => if s.watermark <= 0 { RebuildAllSeals(s, now); }
    case Clean(now, maxDays) => CleanKeepsInv(s, Cutoff(now, maxDays));
    case RebuildRange(start, end, now) => RebuildRangeKeepsInv(s, start, end, now);
    case RebuildAll(now) => RebuildAllSeals(s, now);
  }

  lemma {:induction false} RebuiltDaysKeepLog(s: State, first: int, last: int)
    ensures var s' := RebuiltDays(s, first, last);
            SameLog(s, s') && s'.watermark == s.watermark && s'.clock == s.clock
    decreases last - first
  {
    if first <= last {
      RebuiltDaysKeepLog(s, first, last - 1);
    }
  }

  lemma StepKeepsLog(s: State, op: Op)
    ensures Step(s, op).all == (if op.Insert? then s.all + [op.row] else s.all) && Step(s, op).offset == s.offset
  {
    hide RebuiltDays, DayBucketOf;
    match op
    case Tick(now) =>
      var s1 := RebuiltDays(s, Today(s, now) - 1, Today(s, now));
      RebuiltDaysKeepLog(s, Today(s, now) - 1, Today(s, now));
      RebuiltDaysKeepLog(s1, s1.watermark + 1, Today(s, now) - SEAL_LAG);
    case RebuildRange(start, end, now) =>
      RebuiltDaysKeepLog(s, DayBucketOf(s.offset, start), DayBucketOf(s.offset, if end < start then start else end));
    case _ =>
  }

  function Run(s: State, ops: seq<Op>): State {
    if ops == [] then s else Step(Run(s, ops[..|ops| - 1]), ops[|ops| - 1])
  }

  predicate AllowedRun(s: State, ops: seq<Op>) {
    ops == [] || (AllowedRun(s, ops[..|ops| - 1]) && Allowed(Run(s, ops[..|ops| - 1]), ops[|ops| - 1]))
  }

  function InsertedRows(ops: seq<Op>): seq<Row> {
    if ops == [] then []
    else InsertedRows(ops[..|ops| - 1]) + if ops[|ops| - 1].Insert? then [ops[|ops| - 1].row] else []
  }

  lemma InitialInv(offset: int, clock: int)
    requires clock + offset >= 2 * 86400
    ensures Inv(Initial(offset, clock))
  {
  }

  lemma {:induction false} RunInv(offset: int, clock: int, ops: seq<Op>)
    requires clock + offset >= 2 * 86400 && AllowedRun(Initial(offset, clock), ops)
    ensures Inv(Run(Initial(offset, clock), ops))
    ensures Run(Initial(offset, clock), ops).all == InsertedRows(ops) && Run(Initial(offset, clock), ops).offset == offset
  {
    if ops == [] {
      InitialInv(offset, clock);
    } else {
      RunInv(offset, clock, ops[..|ops| - 1]);
      StepKeepsInv(Run(Initial(offset, clock), ops[..|ops| - 1]), ops[|ops| - 1]);
      StepKeepsLog(Run(Initial(offset, clock), ops[..|ops| - 1]), ops[|ops| - 1]);
    }
  }

  /** However the log was cleaned, every day up to the watermark still shows all rows ever inserted for it. */
  lemma SealedDaysSurvive(offset: int, clock: int, ops: seq<Op>, day: int)
    requires clock + offset >= 2 * 86400 && AllowedRun(Initial(offset, clock), ops)
    requires day <= Run(Initial(offset, clock), ops).watermark
    ensures var s, rows := Run(Initial(offset, clock), ops), OfDay(offset, InsertedRows(ops), day);
            if rows == [] then day !in s.usage && OnlyDay(s.models, day) == []
            else day in s.usage && s.usage[day] == Summary(rows) && OnlyDay(s.models, day) == GroupByModel(day, rows)
  {
    hide Run, InsertedRows, Summary, GroupByModel;
    RunInv(offset, clock, ops);
    assert Sealed(Run(Initial(offset, clock), ops), day);
  }

  lemma WatermarkNeverFalls(offset: int, clock: int, ops: seq<Op>, n: nat)
    requires clock + offset >= 2 * 86400 && AllowedRun(Initial(offset, clock), ops) && n <= |ops|
    ensures Run(Initial(offset, clock), ops[..n]).watermark <= Run(Initial(offset, clock), ops).watermark
    decreases |ops|
  {
    if n == |ops| {
      assert ops[..n] == ops;
    } else {
      var init := ops[..|ops| - 1];
      assert init[..n] == ops[..n];
      WatermarkNeverFalls(offset, clock, init, n);
      RunInv(offset, clock, init);
      StepKeepsInv(Run(Initial(offset, clock), init), ops[|ops| - 1]);
    }
  }
}
