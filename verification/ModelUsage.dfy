/** Usage per model over several windows: complete days from the model table, the rest from the log. */
module ModelUsage {
  import opened DayBucket
  import opened Rollup
  import opened RollupLimits
  import opened Readers

  datatype Window = Window(requests: int, tokens: int, cached: int)

  datatype Recent = Recent(model: string, w1h: Window, w24h: Window, today: Window)

  datatype Usage = Usage(w1h: Window, w24h: Window, w7d: Window, w30d: Window)

  const NO_USE := Window(0, 0, 0)
  const UNUSED := Usage(NO_USE, NO_USE, NO_USE, NO_USE)

  function Add(a: Window, b: Window): Window {
    Window(a.requests + b.requests, a.tokens + b.tokens, a.cached + b.cached)
  }

  function RowWindow(r: Row): Window {
    Window(1, r.prompt + r.completion, r.cached)
  }

  /** What the rows of one model add up to. */
  function Use(rows: seq<Row>, model: string): Window {
    if rows == [] then NO_USE
    else Add(Use(rows[..|rows| - 1], model), if rows[|rows| - 1].model == model then RowWindow(rows[|rows| - 1]) else NO_USE)
  }

  /** One entry per model with rows in the last 24 hours. */
  function RecentOf(offset: int, rows: seq<Row>, now: int): seq<Recent> {
    var kept := Since(rows, now - 86400);
    RecentOfModels(kept, now, DayStart(offset, DayBucketOf(offset, now)), Models(kept))
  }

  function RecentOfModels(kept: seq<Row>, now: int, today: int, models: seq<string>): seq<Recent> {
    if models == [] then []
    else
      var m := models[|models| - 1];
      RecentOfModels(kept, now, today, models[..|models| - 1]) +
      [Recent(m, Use(Since(kept, now - 3600), m), Use(kept, m), Use(Since(kept, today), m))]
  }

  function ListModelDays(table: seq<ModelDay>, lo: int, hi: int): seq<ModelDay> {
    if table == [] then []
    else
      var d := table[|table| - 1];
      ListModelDays(table[..|table| - 1], lo, hi) + if lo <= d.day <= hi then [d] else []
  }

  function DayWindow(d: ModelDay): Window {
    Window(d.requests, d.prompt + d.completion, d.cached)
  }

  /** What the model's entries from one day to another add up to. */
  function SumModel(days: seq<ModelDay>, model: string, lo: int, hi: int): Window {
    if days == [] then NO_USE
    else
      var d := days[|days| - 1];
      Add(SumModel(days[..|days| - 1], model, lo, hi), if d.model == model && lo <= d.day <= hi then DayWindow(d) else NO_USE)
  }

  predicate Named(days: seq<ModelDay>, model: string) {
    exists i :: 0 <= i < |days| && days[i].model == model
  }

  predicate Seen(recent: seq<Recent>, model: string) {
    exists i :: 0 <= i < |recent| && recent[i].model == model
  }

  function EntryOf(recent: seq<Recent>, model: string): Recent {
    if recent == [] then Recent(model, NO_USE, NO_USE, NO_USE)
    else if recent[|recent| - 1].model == model then recent[|recent| - 1]
    else EntryOf(recent[..|recent| - 1], model)
  }

  function TodayOf(recent: seq<Recent>, model: string): Window {
    if recent == [] then NO_USE
    else Add(TodayOf(recent[..|recent| - 1], model), if recent[|recent| - 1].model == model then recent[|recent| - 1].today else NO_USE)
  }

  /** A model's windows after merging the entries `days` and the live part of `live`. */
  function Merged(recent: seq<Recent>, days: seq<ModelDay>, live: seq<Recent>, today: int, m: string): Usage {
    var e, today' := EntryOf(recent, m), TodayOf(live, m);
    Usage(e.w1h, e.w24h, Add(SumModel(days, m, today - 6, today - 1), today'), Add(SumModel(days, m, today - 29, today - 1), today'))
  }

  function Entry(byName: map<string, Usage>, m: string): Usage {
    if m in byName then byName[m] else UNUSED
  }

  ghost predicate Holds(byName: map<string, Usage>, recent: seq<Recent>, days: seq<ModelDay>, live: seq<Recent>, today: int) {
    && (forall m :: m in byName <==> Seen(recent, m) || Named(days, m))
    && (forall m :: Entry(byName, m) == Merged(recent, days, live, today, m))
  }

  lemma MergedNothing(today: int, m: string)
    ensures Merged([], [], [], today, m) == UNUSED && !Seen([], m) && !Named([], m)
  {
  }

  lemma NothingHolds(today: int)
    ensures Holds(map[], [], [], [], today)
  {
    hide Merged, Seen, Named;
    forall m
      ensures !Seen([], m) && !Named([], m) && Entry(map[], m) == Merged([], [], [], today, m)
    {
      MergedNothing(today, m);
    }
  }

  lemma SeenSnoc(recent: seq<Recent>, r: Recent, m: string)
    ensures Seen(recent + [r], m) <==> Seen(recent, m) || r.model == m
  {
    assert (recent + [r])[|recent|] == r;
    if Seen(recent, m) {
      var i :| 0 <= i < |recent| && recent[i].model == m;
      assert (recent + [r])[i].model == m;
    }
  }

  lemma MergedRecent(recent: seq<Recent>, r: Recent, today: int, m: string)
    ensures Merged(recent + [r], [], [], today, m) ==
            if m == r.model then Usage(r.w1h, r.w24h, NO_USE, NO_USE) else Merged(recent, [], [], today, m)
  {
    assert (recent + [r])[..|recent|] == recent;
  }

  lemma RecentHolds(byName: map<string, Usage>, recent: seq<Recent>, r: Recent, today: int)
    requires Holds(byName, recent, [], [], today)
    ensures Holds(byName[r.model := Usage(r.w1h, r.w24h, NO_USE, NO_USE)], recent + [r], [], [], today)
  {
    hide Merged, Seen, Named;
    var byName' := byName[r.model := Usage(r.w1h, r.w24h, NO_USE, NO_USE)];
    forall m
      ensures m in byName' <==> Seen(recent + [r], m) || Named([], m)
      ensures Entry(byName', m) == Merged(recent + [r], [], [], today, m)
    {
      SeenSnoc(recent, r, m);
      MergedRecent(recent, r, today, m);
      assert Entry(byName, m) == Merged(recent, [], [], today, m);
    }
  }

  /** The map entry after one table row. */
  function WithDay(u: Usage, d: ModelDay, today: int): Usage {
    var w := DayWindow(d);
    u.(w30d := Add(u.w30d, w), w7d := if d.day >= today - 6 then Add(u.w7d, w) else u.w7d)
  }

  lemma MergedDay(recent: seq<Recent>, days: seq<ModelDay>, d: ModelDay, today: int, m: string)
    requires today - 29 <= d.day <= today - 1
    ensures Merged(recent, days + [d], [], today, m) ==
            if m == d.model then WithDay(Merged(recent, days, [], today, m), d, today) else Merged(recent, days, [], today, m)
  {
    assert (days + [d])[..|days|] == days;
  }

  lemma NamedSnoc(days: seq<ModelDay>, d: ModelDay, m: string)
    ensures Named(days + [d], m) <==> Named(days, m) || d.model == m
  {
    assert (days + [d])[|days|] == d;
    if Named(days, m) {
      var i :| 0 <= i < |days| && days[i].model == m;
      assert (days + [d])[i].model == m;
    }
  }

  lemma DayHolds(byName: map<string, Usage>, recent: seq<Recent>, days: seq<ModelDay>, d: ModelDay, today: int)
    requires Holds(byName, recent, days, [], today) && today - 29 <= d.day <= today - 1
    ensures Holds(byName[d.model := WithDay(Entry(byName, d.model), d, today)], recent, days + [d], [], today)
  {
    hide Merged, WithDay, Named;
    var byName' := byName[d.model := WithDay(Entry(byName, d.model), d, today)];
    forall m
      ensures m in byName' <==> Seen(recent, m) || Named(days + [d], m)
      ensures Entry(byName', m) == Merged(recent, days + [d], [], today, m)
    {
      NamedSnoc(days, d, m);
      MergedDay(recent, days, d, today, m);
      assert Entry(byName, m) == Merged(recent, days, [], today, m);
    }
  }

  /** The map entry after today's part was added. */
  function WithToday(u: Usage, w: Window): Usage {
    u.(w7d := Add(u.w7d, w), w30d := Add(u.w30d, w))
  }

  lemma MergedToday(recent: seq<Recent>, days: seq<ModelDay>, live: seq<Recent>, r: Recent, today: int, m: string)
    ensures Merged(recent, days, live + [r], today, m) ==
            if m == r.model then WithToday(Merged(recent, days, live, today, m), r.today) else Merged(recent, days, live, today, m)
  {
    assert (live + [r])[..|live|] == live;
  }

  lemma TodayHolds(byName: map<string, Usage>, recent: seq<Recent>, days: seq<ModelDay>, live: seq<Recent>, r: Recent, today: int)
    requires Holds(byName, recent, days, live, today) && r.model in byName
    ensures Holds(byName[r.model := WithToday(byName[r.model], r.today)], recent, days, live + [r], today)
  {
    hide Merged, WithToday, Named, Seen;
    var byName' := byName[r.model := WithToday(byName[r.model], r.today)];
    forall m
      ensures m in byName' <==> Seen(recent, m) || Named(days, m)
      ensures Entry(byName', m) == Merged(recent, days, live + [r], today, m)
    {
      MergedToday(recent, days, live, r, today, m);
      assert Entry(byName, m) == Merged(recent, days, live, today, m);
    }
  }

  /** Merge the two query results in a map by model name. */
  method Merge(recent: seq<Recent>, days: seq<ModelDay>, today: int) returns (byName: map<string, Usage>)
    requires forall d :: d in days ==> today - 29 <= d.day <= today - 1
    ensures Holds(byName, recent, days, recent, today)
  {
    hide Holds, Merged;
    byName := map[];
    NothingHolds(today);
    for i := 0 to |recent|
      invariant Holds(byName, recent[..i], [], [], today)
    {
      assert recent[..i + 1] == recent[..i] + [recent[i]];
      RecentHolds(byName, recent[..i], recent[i], today);
      byName := byName[recent[i].model := Usage(recent[i].w1h, recent[i].w24h, NO_USE, NO_USE)];
    }
    assert recent[..|recent|] == recent;
    for i := 0 to |days|
      invariant Holds(byName, recent, days[..i], [], today)
    {
      assert days[..i + 1] == days[..i] + [days[i]];
      DayHolds(byName, recent, days[..i], days[i], today);
      var d, w := days[i], DayWindow(days[i]);
      var m := if d.model in byName then byName[d.model] else UNUSED;
      m := m.(w30d := Add(m.w30d, w));
      if d.day >= today - 6 {
        m := m.(w7d := Add(m.w7d, w));
      }
      byName := byName[d.model := m];
    }
    assert days[..|days|] == days;
    for i := 0 to |recent|
      invariant Holds(byName, recent, days, recent[..i], today)
    {
      assert recent[..i + 1] == recent[..i] + [recent[i]];
      SeenIsIn(byName, recent, days, recent[..i], today, i);
      TodayHolds(byName, recent, days, recent[..i], recent[i], today);
      if recent[i].model in byName {
        var m := byName[recent[i].model];
        m := m.(w7d := Add(m.w7d, recent[i].today));
        m := m.(w30d := Add(m.w30d, recent[i].today));
        byName := byName[recent[i].model := m];
      }
    }
    assert recent[..|recent|] == recent;
  }

  lemma SeenIsIn(byName: map<string, Usage>, recent: seq<Recent>, days: seq<ModelDay>, live: seq<Recent>, today: int, i: nat)
    requires Holds(byName, recent, days, live, today) && i < |recent|
    ensures recent[i].model in byName
  {
    assert Seen(recent, recent[i].model);
  }

  // ---------- the table and the log add up to all rows ----------

  lemma AddAssociates(a: Window, b: Window, c: Window)
    ensures Add(Add(a, b), c) == Add(a, Add(b, c)) && Add(a, NO_USE) == a && Add(NO_USE, a) == a
  {
  }

  lemma UseSnoc(rows: seq<Row>, r: Row, counted: bool, m: string)
    ensures Use(rows + if counted then [r] else [], m) ==
            Add(Use(rows, m), if counted && r.model == m then RowWindow(r) else NO_USE)
  {
    if counted {
      assert (rows + [r])[..|rows|] == rows;
    } else {
      assert rows + [] == rows;
      AddAssociates(Use(rows, m), NO_USE, NO_USE);
    }
  }

  lemma {:induction false} ModelRowAddsUp(day: int, rows: seq<Row>, m: string)
    ensures DayWindow(ModelRow(day, rows, m)) == Use(rows, m)
  {
    hide ModelRow, DayWindow, Use;
    if rows == [] {
      NoModelRow(day, m);
    } else {
      var init, r := rows[..|rows| - 1], rows[|rows| - 1];
      ModelRowAddsUp(day, init, m);
      ModelRowSnoc(day, init, r, m);
      assert rows == init + [r];
    }
  }

  lemma NoModelRow(day: int, m: string)
    ensures DayWindow(ModelRow(day, [], m)) == Use([], m)
  {
    assert OfModel([], m) == [];
  }

  lemma ModelRowSnoc(day: int, rows: seq<Row>, r: Row, m: string)
    requires DayWindow(ModelRow(day, rows, m)) == Use(rows, m)
    ensures DayWindow(ModelRow(day, rows + [r], m)) == Use(rows + [r], m)
  {
    hide OfModel, Summary, Use;
    UseSnoc(rows, r, true, m);
    OfModelSnoc(rows, r, m);
    if r.model == m {
      SummarySnoc(OfModel(rows, m), r);
    } else {
      AddAssociates(Use(rows, m), NO_USE, NO_USE);
    }
  }

  lemma OfModelSnoc(rows: seq<Row>, r: Row, m: string)
    ensures OfModel(rows + [r], m) == if r.model == m then OfModel(rows, m) + [r] else OfModel(rows, m)
  {
    assert (rows + [r])[..|rows|] == rows;
  }

  lemma SummarySnoc(rows: seq<Row>, r: Row)
    ensures var s, s' := Summary(rows), Summary(rows + [r]);
            && s'.requests == s.requests + 1 && s'.prompt == s.prompt + r.prompt
            && s'.completion == s.completion + r.completion && s'.cached == s.cached + r.cached
  {
    assert (rows + [r])[..|rows|] == rows;
  }

  lemma SumSnocModel(days: seq<ModelDay>, d: ModelDay, m: string, lo: int, hi: int)
    ensures SumModel(days + [d], m, lo, hi) ==
            Add(SumModel(days, m, lo, hi), if d.model == m && lo <= d.day <= hi then DayWindow(d) else NO_USE)
  {
    assert (days + [d])[..|days|] == days;
  }

  function RowsOfModels(day: int, rows: seq<Row>, models: seq<string>): seq<ModelDay> {
    if models == [] then []
    else RowsOfModels(day, rows, models[..|models| - 1]) + [ModelRow(day, rows, models[|models| - 1])]
  }

  lemma {:induction false} GroupIsRowsOfModels(day: int, rows: seq<Row>, models: seq<string>)
    ensures RowsOfModels(day, rows, models) == seq(|models|, i requires 0 <= i < |models| => ModelRow(day, rows, models[i]))
  {
    hide ModelRow;
    if models != [] {
      GroupIsRowsOfModels(day, rows, models[..|models| - 1]);
    }
  }

  lemma {:induction false} GroupAddsUp(day: int, rows: seq<Row>, models: seq<string>, m: string, lo: int, hi: int)
    requires lo <= day <= hi && forall i, j :: 0 <= i < j < |models| ==> models[i] != models[j]
    ensures SumModel(RowsOfModels(day, rows, models), m, lo, hi) == if m in models then Use(rows, m) else NO_USE
  {
    hide SumModel, Use, ModelRow, DayWindow, Add;
    if models == [] {
      SumNothing(m, lo, hi);
    } else {
      var init, last := models[..|models| - 1], models[|models| - 1];
      GroupAddsUp(day, rows, init, m, lo, hi);
      OneMoreModel(day, rows, RowsOfModels(day, rows, init), last, m, lo, hi);
      LastModel(models, m);
      AddAssociates(Use(rows, m), NO_USE, NO_USE);
      AddAssociates(NO_USE, NO_USE, NO_USE);
    }
  }

  lemma OneMoreModel(day: int, rows: seq<Row>, before: seq<ModelDay>, last: string, m: string, lo: int, hi: int)
    requires lo <= day <= hi
    ensures SumModel(before + [ModelRow(day, rows, last)], m, lo, hi) ==
            Add(SumModel(before, m, lo, hi), if last == m then Use(rows, m) else NO_USE)
  {
    hide SumModel, Use, ModelRow, DayWindow;
    RowIsOf(day, rows, last);
    SumSnocModel(before, ModelRow(day, rows, last), m, lo, hi);
    ModelRowAddsUp(day, rows, last);
  }

  lemma LastModel(models: seq<string>, m: string)
    requires models != [] && forall i, j :: 0 <= i < j < |models| ==> models[i] != models[j]
    ensures m in models <==> m in models[..|models| - 1] || m == models[|models| - 1]
    ensures m == models[|models| - 1] ==> m !in models[..|models| - 1]
  {
    assert models == models[..|models| - 1] + [models[|models| - 1]];
  }

  lemma RowIsOf(day: int, rows: seq<Row>, m: string)
    ensures ModelRow(day, rows, m).model == m && ModelRow(day, rows, m).day == day
  {
  }

  lemma SumNothing(m: string, lo: int, hi: int)
    ensures SumModel([], m, lo, hi) == NO_USE
  {
  }

  lemma {:induction false} NoUse(rows: seq<Row>, m: string)
    requires m !in Models(rows)
    ensures Use(rows, m) == NO_USE
  {
    if rows != [] {
      assert rows[|rows| - 1].model in Models(rows);
      NoUse(rows[..|rows| - 1], m);
    }
  }

  /** The sealed entries of one day, for one model. */
  lemma DayAddsUp(day: int, rows: seq<Row>, m: string)
    ensures SumModel(GroupByModel(day, rows), m, day, day) == Use(rows, m)
  {
    hide SumModel, Use, ModelRow, DayWindow;
    GroupIsRowsOfModels(day, rows, Models(rows));
    GroupAddsUp(day, rows, Models(rows), m, day, day);
    if m !in Models(rows) {
      NoUse(rows, m);
    }
  }

  lemma {:induction false} SumOfLastDay(table: seq<ModelDay>, m: string, lo: int, hi: int)
    requires lo <= hi
    ensures SumModel(table, m, lo, hi) == Add(SumModel(table, m, lo, hi - 1), SumModel(OnlyDay(table, hi), m, hi, hi))
  {
    if table != [] {
      var init, d := table[..|table| - 1], table[|table| - 1];
      assert table == init + [d];
      hide SumModel, OnlyDay, DayWindow, Add;
      SumOfLastDay(init, m, lo, hi);
      SumSnocModel(init, d, m, lo, hi);
      SumSnocModel(init, d, m, lo, hi - 1);
      SumOnlyDaySnoc(init, d, m, hi);
      AddedOnce(SumModel(init, m, lo, hi - 1), SumModel(OnlyDay(init, hi), m, hi, hi), DayWindow(d),
                d.model == m && lo <= d.day <= hi - 1, d.model == m && d.day == hi);
    } else {
      SumNothing(m, lo, hi);
      SumNothing(m, lo, hi - 1);
      SumNothing(m, hi, hi);
    }
  }

  lemma SumOnlyDaySnoc(table: seq<ModelDay>, d: ModelDay, m: string, day: int)
    ensures SumModel(OnlyDay(table + [d], day), m, day, day) ==
            Add(SumModel(OnlyDay(table, day), m, day, day), if d.model == m && d.day == day then DayWindow(d) else NO_USE)
  {
    assert (table + [d])[..|table|] == table;
    if d.day == day {
      SumSnocModel(OnlyDay(table, day), d, m, day, day);
    } else {
      AddAssociates(SumModel(OnlyDay(table, day), m, day, day), NO_USE, NO_USE);
    }
  }

  lemma {:induction false} SumOfNoDays(table: seq<ModelDay>, m: string, lo: int, hi: int)
    requires hi < lo
    ensures SumModel(table, m, lo, hi) == NO_USE
  {
    if table != [] {
      SumOfNoDays(table[..|table| - 1], m, lo, hi);
    }
  }

  lemma {:induction false} SumOfListed(table: seq<ModelDay>, m: string, lo: int, from: int, hi: int)
    requires lo <= from
    ensures SumModel(ListModelDays(table, lo, hi), m, from, hi) == SumModel(table, m, from, hi)
  {
    if table != [] {
      var init, d := table[..|table| - 1], table[|table| - 1];
      assert table == init + [d];
      hide SumModel, DayWindow, Add;
      SumOfListed(init, m, lo, from, hi);
      SumSnocModel(init, d, m, from, hi);
      if lo <= d.day <= hi {
        SumSnocModel(ListModelDays(init, lo, hi), d, m, from, hi);
      } else {
        assert ListModelDays(init, lo, hi) + [] == ListModelDays(init, lo, hi);
        AddAssociates(SumModel(init, m, from, hi), NO_USE, NO_USE);
      }
    }
  }

  lemma AddedOnce(a: Window, b: Window, x: Window, inA: bool, inB: bool)
    requires !(inA && inB)
    ensures Add(Add(a, if inA then x else NO_USE), Add(b, if inB then x else NO_USE)) ==
            Add(Add(a, b), if inA || inB then x else NO_USE)
  {
  }

  lemma UseSinceSnoc(rows: seq<Row>, r: Row, since: int, m: string)
    ensures Use(Since(rows + [r], since), m) ==
            Add(Use(Since(rows, since), m), if r.at >= since && r.model == m then RowWindow(r) else NO_USE)
  {
    SinceSnoc(rows, r, since);
    UseSnoc(Since(rows, since), r, r.at >= since, m);
  }

  lemma UseOfDaySnoc(offset: int, rows: seq<Row>, r: Row, day: int, m: string)
    ensures Use(OfDay(offset, rows + [r], day), m) ==
            Add(Use(OfDay(offset, rows, day), m), if InDay(offset, day, r.at) && r.model == m then RowWindow(r) else NO_USE)
  {
    OfDaySnoc(offset, rows, r, day);
    UseSnoc(OfDay(offset, rows, day), r, InDay(offset, day, r.at), m);
  }

  lemma {:induction false} UseSplitsAtMidnight(offset: int, rows: seq<Row>, day: int, m: string)
    ensures Use(Since(rows, DayStart(offset, day)), m) ==
            Add(Use(OfDay(offset, rows, day), m), Use(Since(rows, DayStart(offset, day + 1)), m))
  {
    if rows != [] {
      var init, r := rows[..|rows| - 1], rows[|rows| - 1];
      assert rows == init + [r];
      hide Since, OfDay, Use, Add, RowWindow, DayStart, InDay;
      UseSplitsAtMidnight(offset, init, day, m);
      UseSinceSnoc(init, r, DayStart(offset, day), m);
      UseOfDaySnoc(offset, init, r, day, m);
      UseSinceSnoc(init, r, DayStart(offset, day + 1), m);
      TodayOrLater(offset, day, r.at);
      AddedOnce(Use(OfDay(offset, init, day), m), Use(Since(init, DayStart(offset, day + 1)), m), RowWindow(r),
                InDay(offset, day, r.at) && r.model == m, r.at >= DayStart(offset, day + 1) && r.model == m);
    }
  }

  lemma SealedDayUse(s: State, day: int, m: string)
    requires Sealed(s, day)
    ensures SumModel(OnlyDay(s.models, day), m, day, day) == Use(OfDay(s.offset, s.all, day), m)
  {
    hide OnlyDay, GroupByModel, Summary, OfDay;
    var rows := OfDay(s.offset, s.all, day);
    if rows != [] {
      DayAddsUp(day, rows, m);
    }
  }

  lemma {:induction false} ModelDaysAddUp(s: State, m: string, lo: int, hi: int)
    requires SealedTo(s, hi) && lo <= hi + 1
    ensures Add(SumModel(s.models, m, lo, hi), Use(Since(s.all, DayStart(s.offset, hi + 1)), m)) ==
            Use(Since(s.all, DayStart(s.offset, lo)), m)
    decreases hi - lo
  {
    if lo == hi + 1 {
      SumOfNoDays(s.models, m, lo, hi);
      AddAssociates(Use(Since(s.all, DayStart(s.offset, lo)), m), NO_USE, NO_USE);
    } else {
      SealedToEarlier(s, hi, hi - 1);
      SealedToMeans(s, hi, hi);
      hide Sealed, SealedTo, Since, Use, SumModel, OnlyDay, OfDay, DayStart, Add;
      ModelDaysAddUp(s, m, lo, hi - 1);
      SumOfLastDay(s.models, m, lo, hi);
      SealedDayUse(s, hi, m);
      UseSplitsAtMidnight(s.offset, s.all, hi, m);
      AddAssociates(SumModel(s.models, m, lo, hi - 1), Use(OfDay(s.offset, s.all, hi), m), Use(Since(s.all, DayStart(s.offset, hi + 1)), m));
    }
  }

  // ---------- the live part ----------

  lemma {:induction false} EntryOfModels(kept: seq<Row>, now: int, today: int, models: seq<string>, m: string)
    requires forall i, j :: 0 <= i < j < |models| ==> models[i] != models[j]
    ensures var recent := RecentOfModels(kept, now, today, models);
            && (Seen(recent, m) <==> m in models)
            && TodayOf(recent, m) == (if m in models then Use(Since(kept, today), m) else NO_USE)
            && EntryOf(recent, m) == if m in models then Recent(m, Use(Since(kept, now - 3600), m), Use(kept, m), Use(Since(kept, today), m))
                                     else Recent(m, NO_USE, NO_USE, NO_USE)
  {
    hide Use, Since, Seen, Add, EntryOf, TodayOf;
    if models == [] {
      SeenNothing(m);
    } else {
      var init, last := models[..|models| - 1], models[|models| - 1];
      LastModel(models, m);
      EntryOfModels(kept, now, today, init, m);
      OneMoreRecent(RecentOfModels(kept, now, today, init), kept, now, today, last, m);
      AddAssociates(Use(Since(kept, today), m), NO_USE, NO_USE);
      AddAssociates(NO_USE, NO_USE, NO_USE);
    }
  }

  lemma OneMoreRecent(before: seq<Recent>, kept: seq<Row>, now: int, today: int, last: string, m: string)
    ensures var r := Recent(last, Use(Since(kept, now - 3600), last), Use(kept, last), Use(Since(kept, today), last));
            && (Seen(before + [r], m) <==> Seen(before, m) || last == m)
            && EntryOf(before + [r], m) == (if last == m then r else EntryOf(before, m))
            && TodayOf(before + [r], m) == Add(TodayOf(before, m), if last == m then Use(Since(kept, today), m) else NO_USE)
  {
    hide EntryOf, TodayOf, Use, Since, Seen;
    var r := Recent(last, Use(Since(kept, now - 3600), last), Use(kept, last), Use(Since(kept, today), last));
    SeenSnoc(before, r, m);
    TodaySnoc(before, r, m);
  }

  lemma SeenNothing(m: string)
    ensures !Seen([], m) && TodayOf([], m) == NO_USE && EntryOf([], m) == Recent(m, NO_USE, NO_USE, NO_USE)
  {
  }

  lemma TodaySnoc(recent: seq<Recent>, r: Recent, m: string)
    ensures TodayOf(recent + [r], m) == Add(TodayOf(recent, m), if r.model == m then r.today else NO_USE)
    ensures EntryOf(recent + [r], m) == if r.model == m then r else EntryOf(recent, m)
  {
    assert (recent + [r])[..|recent|] == recent;
  }

  lemma {:induction false} NoUseSince(rows: seq<Row>, since: int, m: string)
    requires m !in Models(rows)
    ensures Use(Since(rows, since), m) == NO_USE
  {
    SinceKeeps(rows, since);
    NotThere(rows, Since(rows, since), m);
    NoUse(Since(rows, since), m);
  }

  lemma HasModel(rows: seq<Row>, r: Row)
    requires r in rows
    ensures r.model in Models(rows)
  {
  }

  lemma NotThere(rows: seq<Row>, fewer: seq<Row>, m: string)
    requires m !in Models(rows) && forall r :: r in fewer ==> r in rows
    ensures m !in Models(fewer)
  {
    forall i | 0 <= i < |fewer|
      ensures fewer[i].model != m
    {
      HasModel(rows, fewer[i]);
    }
  }

  lemma SinceMidnight(offset: int, now: int)
    requires now + offset >= 0
    ensures now - 86400 < DayStart(offset, DayBucketOf(offset, now)) <= now
  {
    BucketAndRangeAreInverse(offset, now);
    assert InDay(offset, DayBucketOf(offset, now), now);
  }

  /** The windows the live query gives a model are those of the direct queries. */
  lemma RecentIsDirect(offset: int, rows: seq<Row>, now: int, m: string)
    requires now + offset >= 0
    ensures var recent, today := RecentOf(offset, rows, now), DayStart(offset, DayBucketOf(offset, now));
            && (Seen(recent, m) <==> m in Models(Since(rows, now - 86400)))
            && EntryOf(recent, m).w1h == Use(Since(rows, now - 3600), m)
            && EntryOf(recent, m).w24h == Use(Since(rows, now - 86400), m)
            && TodayOf(recent, m) == Use(Since(rows, today), m)
  {
    hide Use, Since, EntryOf, TodayOf, DayStart, DayBucketOf, RecentOfModels, Seen;
    var kept, today := Since(rows, now - 86400), DayStart(offset, DayBucketOf(offset, now));
    EntryOfModels(kept, now, today, Models(kept), m);
    SinceMidnight(offset, now);
    SinceSince(rows, now - 86400, now - 3600);
    SinceSince(rows, now - 86400, today);
    if m !in Models(kept) {
      NoUse(kept, m);
      NoUseSince(kept, now - 3600, m);
      NoUseSince(kept, today, m);
    }
  }

  lemma {:induction false} ListedDays(table: seq<ModelDay>, lo: int, hi: int)
    ensures forall d :: d in ListModelDays(table, lo, hi) <==> d in table && lo <= d.day <= hi
  {
    if table != [] {
      var init, last := table[..|table| - 1], table[|table| - 1];
      assert table == init + [last];
      ListedDays(init, lo, hi);
    }
  }

  lemma {:induction false} OnlyDayHas(table: seq<ModelDay>, day: int, d: ModelDay)
    ensures d in OnlyDay(table, day) <==> d in table && d.day == day
  {
    if table != [] {
      var init, last := table[..|table| - 1], table[|table| - 1];
      assert table == init + [last];
      OnlyDayHas(init, day, d);
    }
  }

  // ---------- which models are listed ----------

  /** Some row of the model since a moment. */
  predicate UsedSince(rows: seq<Row>, since: int, m: string) {
    exists r :: r in rows && r.at >= since && r.model == m
  }

  lemma {:induction false} SinceHas(rows: seq<Row>, since: int, r: Row)
    ensures r in Since(rows, since) <==> r in rows && r.at >= since
  {
    if rows != [] {
      var init, last := rows[..|rows| - 1], rows[|rows| - 1];
      SinceHas(init, since, r);
      assert rows == init + [last];
    }
  }

  lemma ModelHasRow(rows: seq<Row>, m: string) returns (r: Row)
    requires m in Models(rows)
    ensures r in rows && r.model == m
  {
    var i :| 0 <= i < |rows| && rows[i].model == m;
    r := rows[i];
  }

  lemma GroupHas(day: int, rows: seq<Row>, m: string)
    ensures Named(GroupByModel(day, rows), m) <==> m in Models(rows)
  {
    var models := Models(rows);
    if m in models {
      var i :| 0 <= i < |models| && models[i] == m;
      assert GroupByModel(day, rows)[i].model == m;
    }
  }

  /** A sealed day's entries name the models its rows have. */
  lemma SealedDayNames(s: State, day: int, m: string)
    requires Sealed(s, day)
    ensures Named(OnlyDay(s.models, day), m) <==> m in Models(OfDay(s.offset, s.all, day))
  {
    hide OnlyDay, GroupByModel, Summary, OfDay;
    GroupHas(day, OfDay(s.offset, s.all, day), m);
    NoModels();
  }

  lemma NoModels()
    ensures Models([]) == [] && forall m :: !Named([], m)
  {
  }

  lemma NamedIn(days: seq<ModelDay>, m: string)
    ensures Named(days, m) <==> exists d :: d in days && d.model == m
  {
    if d :| d in days && d.model == m {
      var i :| 0 <= i < |days| && days[i] == d;
      assert days[i].model == m;
    }
    if Named(days, m) {
      var i :| 0 <= i < |days| && days[i].model == m;
      assert days[i] in days;
    }
  }

  lemma ListedIsUsed(s: State, m: string, lo: int, hi: int)
    requires SealedTo(s, hi) && Named(ListModelDays(s.models, lo, hi), m)
    ensures UsedSince(s.all, DayStart(s.offset, lo), m)
  {
    hide OnlyDay, OfDay, ListModelDays, Named, Sealed;
    NamedIn(ListModelDays(s.models, lo, hi), m);
    var d :| d in ListModelDays(s.models, lo, hi) && d.model == m;
    ListedDays(s.models, lo, hi);
    OnlyDayHas(s.models, d.day, d);
    NamedIn(OnlyDay(s.models, d.day), m);
    SealedToMeans(s, hi, d.day);
    SealedDayNames(s, d.day, m);
    var r := ModelHasRow(OfDay(s.offset, s.all, d.day), m);
    OfDayHas(s.offset, s.all, d.day, r);
  }

  lemma UsedDayIsListed(s: State, lo: int, hi: int, day: int, r: Row)
    requires SealedTo(s, hi) && lo <= day <= hi && r in s.all && InDay(s.offset, day, r.at)
    ensures Named(ListModelDays(s.models, lo, hi), r.model)
  {
    hide OnlyDay, OfDay, ListModelDays, Named, Sealed;
    OfDayHas(s.offset, s.all, day, r);
    HasModel(OfDay(s.offset, s.all, day), r);
    SealedToMeans(s, hi, day);
    SealedDayNames(s, day, r.model);
    NamedIn(OnlyDay(s.models, day), r.model);
    var d :| d in OnlyDay(s.models, day) && d.model == r.model;
    OnlyDayHas(s.models, day, d);
    ListedDays(s.models, lo, hi);
    NamedIn(ListModelDays(s.models, lo, hi), r.model);
  }

  lemma SeenIsUsed(s: State, now: int, m: string)
    requires Retained(s) && s.cut <= now - 86400
    ensures m in Models(Since(s.raw, now - 86400)) <==> UsedSince(s.all, now - 86400, m)
  {
    hide Models, Since;
    LogHasEverythingSince(s, now - 86400);
    if m in Models(Since(s.raw, now - 86400)) {
      var r := ModelHasRow(Since(s.raw, now - 86400), m);
      SinceHas(s.all, now - 86400, r);
    }
    if UsedSince(s.all, now - 86400, m) {
      var r :| r in s.all && r.at >= now - 86400 && r.model == m;
      SinceHas(s.all, now - 86400, r);
      HasModel(Since(s.raw, now - 86400), r);
    }
  }

  /** A model is listed exactly when one of its rows is in the 30-day window. */
  lemma ListedExactlyWhenUsed(s: State, now: int, m: string)
    requires UpToDate(s, Today(s, now)) && now >= s.clock
    ensures var today := Today(s, now);
            Seen(RecentOf(s.offset, s.raw, now), m) || Named(ListModelDays(s.models, today - 29, today - 1), m) <==>
            UsedSince(s.all, DayStart(s.offset, today - 29), m)
  {
    var today := Today(s, now);
    CutIsOld(s, now);
    SinceMidnight(s.offset, now);
    hide Seen, Named, RecentOf, ListModelDays, Sealed, NoStray, SealedTo;
    RecentIsDirect(s.offset, s.raw, now, m);
    SeenIsUsed(s, now, m);
    if Named(ListModelDays(s.models, today - 29, today - 1), m) {
      ListedIsUsed(s, m, today - 29, today - 1);
    }
    if UsedSince(s.all, DayStart(s.offset, today - 29), m) {
      var r :| r in s.all && r.at >= DayStart(s.offset, today - 29) && r.model == m;
      BucketAndRangeAreInverse(s.offset, r.at);
      var day := DayBucketOf(s.offset, r.at);
      assert InDay(s.offset, day, r.at);
      if day < today {
        UsedDayIsListed(s, today - 29, today - 1, day, r);
      }
    }
  }

  lemma CutIsOld(s: State, now: int)
    requires Inv(s) && now >= s.clock
    ensures s.cut <= now - 86400 && s.cut <= DayStart(s.offset, Today(s, now)) && now + s.offset >= 0
  {
    hide Sealed, NoStray, SealedTo;
    BucketAndRangeAreInverse(s.offset, s.clock);
    BucketAndRangeAreInverse(s.offset, now);
    assert InDay(s.offset, Today(s, s.clock), s.clock) && InDay(s.offset, Today(s, now), now);
  }

  // ---------- the hybrid reader ----------

  /** The direct answer: every window from all rows ever logged. */
  function Direct(s: State, now: int, m: string): Usage {
    var today := Today(s, now);
    Usage(Use(Since(s.all, now - 3600), m), Use(Since(s.all, now - 86400), m),
          Use(Since(s.all, DayStart(s.offset, today - 6)), m), Use(Since(s.all, DayStart(s.offset, today - 29)), m))
  }

  lemma FactsOf(s: State, now: int)
    requires UpToDate(s, Today(s, now)) && now >= s.clock
    ensures Retained(s) && SealedTo(s, Today(s, now) - 1) && now + s.offset >= 0
    ensures s.cut <= now - 86400 && s.cut <= DayStart(s.offset, Today(s, now))
    ensures Today(s, now) == DayBucketOf(s.offset, now)
  {
    CutIsOld(s, now);
  }

  lemma WindowAddsUp(s: State, now: int, m: string, lo: int)
    requires UpToDate(s, Today(s, now)) && now >= s.clock && Today(s, now) - 29 <= lo <= Today(s, now)
    ensures var today := Today(s, now);
            Add(SumModel(ListModelDays(s.models, today - 29, today - 1), m, lo, today - 1),
                TodayOf(RecentOf(s.offset, s.raw, now), m)) == Use(Since(s.all, DayStart(s.offset, lo)), m)
  {
    hide *;
    var today := Today(s, now);
    FactsOf(s, now);
    SumOfListed(s.models, m, today - 29, lo, today - 1);
    ModelDaysAddUp(s, m, lo, today - 1);
    RecentIsDirect(s.offset, s.raw, now, m);
    LogHasEverythingSince(s, DayStart(s.offset, today));
  }

  lemma MergedIsDirect(s: State, now: int, m: string)
    requires UpToDate(s, Today(s, now)) && now >= s.clock
    ensures var recent, today := RecentOf(s.offset, s.raw, now), Today(s, now);
            Merged(recent, ListModelDays(s.models, today - 29, today - 1), recent, today, m) == Direct(s, now, m)
  {
    hide UpToDate, SumModel, ListModelDays, TodayOf, EntryOf, RecentOf, Use, Since, Retained, SealedTo, Add, DayStart, DayBucketOf, Today;
    FactsOf(s, now);
    RecentIsDirect(s.offset, s.raw, now, m);
    LogHasEverythingSince(s, now - 3600);
    LogHasEverythingSince(s, now - 86400);
    WindowAddsUp(s, now, m, Today(s, now) - 6);
    WindowAddsUp(s, now, m, Today(s, now) - 29);
  }

  /** Query both sources and merge them: the same as summing all rows ever logged, even those removed since. */
  method UsageHybrid(s: State, now: int) returns (byName: map<string, Usage>)
    requires UpToDate(s, Today(s, now)) && now >= s.clock
    ensures forall m :: m in byName <==> UsedSince(s.all, DayStart(s.offset, Today(s, now) - 29), m)
    ensures forall m :: m in byName ==> byName[m] == Direct(s, now, m)
  {
    hide UpToDate, Direct, UsedSince, ListModelDays, RecentOf, Holds;
    var recent := RecentOf(s.offset, s.raw, now);
    var today := DayBucketOf(s.offset, now);
    var days := ListModelDays(s.models, today - 29, today - 1);
    ListedDays(s.models, today - 29, today - 1);
    byName := Merge(recent, days, today);
    HybridIsDirect(s, now, byName);
  }

  lemma HybridIsDirect(s: State, now: int, byName: map<string, Usage>)
    requires UpToDate(s, Today(s, now)) && now >= s.clock
    requires var recent, today := RecentOf(s.offset, s.raw, now), Today(s, now);
             Holds(byName, recent, ListModelDays(s.models, today - 29, today - 1), recent, today)
    ensures forall m :: m in byName <==> UsedSince(s.all, DayStart(s.offset, Today(s, now) - 29), m)
    ensures forall m :: m in byName ==> byName[m] == Direct(s, now, m)
  {
    hide UpToDate, Merged, Direct, UsedSince, ListModelDays, RecentOf, Seen, Named, DayStart, Today;
    var recent, today := RecentOf(s.offset, s.raw, now), Today(s, now);
    var days := ListModelDays(s.models, today - 29, today - 1);
    forall m
      ensures m in byName <==> UsedSince(s.all, DayStart(s.offset, today - 29), m)
      ensures m in byName ==> byName[m] == Direct(s, now, m)
    {
      ListedExactlyWhenUsed(s, now, m);
      MergedIsDirect(s, now, m);
      assert Entry(byName, m) == Merged(recent, days, recent, today, m);
    }
  }
}
