/** What a request costs, and recomputing the costs of logged requests. */
module Costs {
  import opened Common
  import opened PeakWindow

  datatype Style = NoStyle | OpenAIStyle | AnthropicStyle

  datatype Protocol = ChatCompletions | Responses | Messages

  datatype Provider = OpenAICompatible | AnthropicProvider

  /** The rates of one tariff; a rate that is not positive is not set. */
  datatype Rates = Rates(input: real, output: real, cacheRead: real, cacheWrite: real)

  datatype Price = Price(cny: bool, base: Rates, offPeak: Rates, above: Rates, threshold: int, window: Option<Rule>)

  /** Everything a cost depends on besides the row. */
  datatype Tariff = Tariff(prices: string -> Option<Price>, usdRate: real, calendar: Calendar, providers: map<int, Provider>)

  datatype PricePeriod = NoPeriod | At(period: Period)

  /** A log row; `cost` is None in rows from before the column existed. */
  datatype Row = Row(id: nat, at: int, model: string, protocol: Protocol, native: bool, channel: int,
                     prompt: int, completion: int, cached: int, cacheWrite: int,
                     cost: Option<real>, style: Style, period: PricePeriod)

  // ---------- one request ----------

  function Positive(rate: real, fallback: real): real {
    if rate > 0.0 then rate else fallback
  }

  function InWindow(p: Price): bool {
    p.window.Some? && ValidRule(p.window.value)
  }

  function RatesAt(p: Price, cal: Calendar, at: int, prompt: int): Rates {
    var r0 := p.base;
    var r1 := if InWindow(p) && PeriodAt(p.window.value, cal, at) == OffPeak
              then Rates(Positive(p.offPeak.input, r0.input), Positive(p.offPeak.output, r0.output), p.offPeak.cacheRead, p.offPeak.cacheWrite)
              else r0;
    var r2 := if p.threshold > 0 && prompt > p.threshold
              then Rates(Positive(p.above.input, r1.input), Positive(p.above.output, r1.output),
                         Positive(p.above.cacheRead, r1.cacheRead), Positive(p.above.cacheWrite, r1.cacheWrite))
              else r1;
    Rates(r2.input, r2.output, Positive(r2.cacheRead, r2.input), Positive(r2.cacheWrite, r2.input))
  }

  /** Uncached input, cached input and cache writes, as they are billed. */
  function SplitInputTokens(prompt: int, cached: int, cacheWrite: int, style: Style): (int, int, int) {
    if style == AnthropicStyle then (prompt, cached, cacheWrite)
    else (if prompt - cached < 0 then 0 else prompt - cached, cached, 0)
  }

  /** In the OpenAI style every input token is billed once exactly when no more are cached than sent. */
  lemma OpenAITokensAreBilledOnce(prompt: int, cached: int, cacheWrite: int, style: Style)
    requires style != AnthropicStyle
    ensures var (uncached, read, written) := SplitInputTokens(prompt, cached, cacheWrite, style);
            (uncached + read + written == prompt <==> cached <= prompt) && uncached >= 0
  {
  }

  function Calculate(prompt: int, completion: int, cached: int, cacheWrite: int, style: Style, p: Price, cal: Calendar, at: int, usdRate: real): real {
    var (uncached, read, written) := SplitInputTokens(prompt, cached, cacheWrite, style);
    var r := RatesAt(p, cal, at, prompt);
    var sum := uncached as real * r.input + read as real * r.cacheRead + written as real * r.cacheWrite + completion as real * r.output;
    if !p.cny then sum else if usdRate <= 0.0 then 0.0 else sum / usdRate
  }

  function StyleOf(p: Protocol): Style {
    if p == Messages then AnthropicStyle else OpenAIStyle
  }

  function StyleOfLog(l: Row, providers: map<int, Provider>): Style {
    if l.cacheWrite > 0 then AnthropicStyle
    else if l.native then StyleOf(l.protocol)
    else if l.channel in providers then if providers[l.channel] == AnthropicProvider then AnthropicStyle else OpenAIStyle
    else StyleOf(l.protocol)
  }

  function Cost(l: Row, t: Tariff): real {
    match t.prices(l.model)
    case None => 0.0
    case Some(p) =>
      Calculate(l.prompt, l.completion, l.cached, l.cacheWrite, StyleOfLog(l, t.providers), p, t.calendar, l.at, t.usdRate)
  }

  /** A row without a price keeps the period it has. */
  function PeriodOf(l: Row, t: Tariff): PricePeriod {
    match t.prices(l.model)
    case None => l.period
    case Some(p) => if InWindow(p) then At(PeriodAt(p.window.value, t.calendar, l.at)) else NoPeriod
  }

  function CostOf(l: Row): real {
    if l.cost.Some? then l.cost.value else 0.0
  }

  predicate UpToDate(l: Row, t: Tariff) {
    Cost(l, t) == CostOf(l) && StyleOfLog(l, t.providers) == l.style && PeriodOf(l, t) == l.period
  }

  /** The row after it was visited. */
  function Priced(l: Row, t: Tariff): Row {
    if UpToDate(l, t) then l else l.(cost := Some(Cost(l, t)), style := StyleOfLog(l, t.providers), period := PeriodOf(l, t))
  }

  // ---------- the window ----------

  datatype Window = Window(start: int, end: Option<int>, onlyMissing: bool)

  predicate Selected(l: Row, w: Window) {
    l.at >= w.start && (w.end.Some? ==> l.at < w.end.value) && (w.onlyMissing ==> CostOf(l) <= 0.0)
  }

  predicate ById(rows: seq<Row>) {
    forall i, j :: 0 <= i < j < |rows| ==> rows[i].id < rows[j].id
  }

  /** The selected rows past a cursor, in id order. */
  function Select(rows: seq<Row>, w: Window, after: int): (r: seq<Row>)
    ensures |r| <= |rows|
  {
    if rows == [] then []
    else (if rows[0].id > after && Selected(rows[0], w) then [rows[0]] else []) + Select(rows[1..], w, after)
  }

  /** The table when all selected rows up to the cursor have been visited. */
  function Upto(rows: seq<Row>, w: Window, t: Tariff, cursor: int): (r: seq<Row>)
    ensures |r| == |rows|
    ensures forall i :: 0 <= i < |rows| ==> r[i] == if rows[i].id <= cursor && Selected(rows[i], w) then Priced(rows[i], t) else rows[i]
  {
    seq(|rows|, i requires 0 <= i < |rows| => if rows[i].id <= cursor && Selected(rows[i], w) then Priced(rows[i], t) else rows[i])
  }

  /** The table after a whole recomputation. */
  function Recomputed(rows: seq<Row>, w: Window, t: Tariff): (r: seq<Row>)
    ensures |r| == |rows|
    ensures forall i :: 0 <= i < |rows| ==> r[i] == if Selected(rows[i], w) then Priced(rows[i], t) else rows[i]
  {
    seq(|rows|, i requires 0 <= i < |rows| => if Selected(rows[i], w) then Priced(rows[i], t) else rows[i])
  }

  /** How many of the rows are not up to date. */
  function Outdated(rows: seq<Row>, t: Tariff): nat {
    if rows == [] then 0 else (if UpToDate(rows[0], t) then 0 else 1) + Outdated(rows[1..], t)
  }

  lemma PricedIsUpToDate(l: Row, t: Tariff)
    ensures UpToDate(Priced(l, t), t)
  {
  }

  /** Every row of the window ends up with the cost, style and period of its own fields; all other rows and columns stay. */
  lemma RecomputedRows(rows: seq<Row>, w: Window, t: Tariff, i: nat)
    requires i < |rows|
    ensures var l, l' := rows[i], Recomputed(rows, w, t)[i];
            && (Selected(l, w) ==> CostOf(l') == Cost(l, t) && l'.style == StyleOfLog(l, t.providers) && l'.period == PeriodOf(l, t))
            && (!Selected(l, w) ==> l' == l)
            && l'.(cost := l.cost, style := l.style, period := l.period) == l
  {
  }

  lemma {:induction false} NoneOutdated(rows: seq<Row>, t: Tariff)
    requires forall i :: 0 <= i < |rows| ==> UpToDate(rows[i], t)
    ensures Outdated(rows, t) == 0
  {
    if rows != [] {
      NoneOutdated(rows[1..], t);
    }
  }

  lemma {:induction false} SelectedOnly(rows: seq<Row>, w: Window, after: int, l: Row)
    requires l in Select(rows, w, after)
    ensures l in rows && l.id > after && Selected(l, w)
  {
    hide Selected;
    if rows[0].id > after && Selected(rows[0], w) && l == rows[0] {
    } else {
      SelectedOnly(rows[1..], w, after, l);
    }
  }

  /** A second run with the same tariff finds nothing to update. */
  lemma SecondRunUpdatesNothing(rows: seq<Row>, w: Window, t: Tariff)
    ensures Recomputed(Recomputed(rows, w, t), w, t) == Recomputed(rows, w, t)
    ensures Outdated(Select(Recomputed(rows, w, t), w, 0), t) == 0
  {
    var rows' := Recomputed(rows, w, t);
    hide Selected, Priced, UpToDate, Select;
    forall i | 0 <= i < |rows'|
      ensures Selected(rows'[i], w) ==> UpToDate(rows'[i], t) && Priced(rows'[i], t) == rows'[i]
    {
      SelectedStaysPriced(rows[i], w, t);
    }
    var again := Select(rows', w, 0);
    forall i | 0 <= i < |again|
      ensures UpToDate(again[i], t)
    {
      SelectedOnly(rows', w, 0, again[i]);
    }
    NoneOutdated(again, t);
  }

  lemma SelectedStaysPriced(l: Row, w: Window, t: Tariff)
    ensures var l' := if Selected(l, w) then Priced(l, t) else l;
            Selected(l', w) ==> UpToDate(l', t) && Priced(l', t) == l'
  {
    PricedIsUpToDate(l, t);
  }

  // ---------- the cursor ----------

  lemma LaterIds(rows: seq<Row>)
    requires rows != [] && ById(rows)
    ensures ById(rows[1..]) && forall i :: 0 <= i < |rows[1..]| ==> rows[1..][i].id > rows[0].id
  {
  }

  /** Moving the cursor to the first selected row drops exactly that row. */
  lemma {:induction false} Advance(rows: seq<Row>, w: Window, after: int)
    requires ById(rows) && Select(rows, w, after) != []
    ensures var first := Select(rows, w, after)[0];
            && first.id > after && Select(rows, w, first.id) == Select(rows, w, after)[1..]
  {
    hide Selected;
    LaterIds(rows);
    if rows[0].id > after && Selected(rows[0], w) {
      SelectFromLater(rows[1..], w, after, rows[0].id);
    } else {
      Advance(rows[1..], w, after);
      SelectedOnly(rows[1..], w, after, Select(rows[1..], w, after)[0]);
    }
  }

  /** A cursor before all rows makes no difference. */
  lemma {:induction false} SelectFromLater(rows: seq<Row>, w: Window, a: int, b: int)
    requires forall i :: 0 <= i < |rows| ==> rows[i].id > a && rows[i].id > b
    ensures Select(rows, w, a) == Select(rows, w, b)
  {
    hide Selected;
    if rows != [] {
      assert forall i :: 0 <= i < |rows[1..]| ==> rows[1..][i] == rows[i + 1];
      SelectFromLater(rows[1..], w, a, b);
    }
  }

  lemma {:induction false} FirstIsLeast(rows: seq<Row>, w: Window, after: int, i: nat)
    requires ById(rows) && i < |rows| && rows[i].id > after && Selected(rows[i], w)
    ensures Select(rows, w, after) != [] && Select(rows, w, after)[0].id <= rows[i].id
  {
    hide Selected;
    LaterIds(rows);
    if i > 0 {
      FirstIsLeast(rows[1..], w, after, i - 1);
    }
  }

  function WithCost(rows: seq<Row>, id: nat, l: Row): (r: seq<Row>)
    ensures |r| == |rows|
    ensures forall i :: 0 <= i < |rows| ==>
              r[i] == if rows[i].id == id then rows[i].(cost := l.cost, style := l.style, period := l.period) else rows[i]
  {
    seq(|rows|, i requires 0 <= i < |rows| =>
      if rows[i].id == id then rows[i].(cost := l.cost, style := l.style, period := l.period) else rows[i])
  }

  lemma PricedColumns(l: Row, t: Tariff)
    ensures var l' := Priced(l, t);
            l.(cost := l'.cost, style := l'.style, period := l'.period) == l' && l'.id == l.id
  {
  }

  /** Writing back the first selected row is what moving the cursor past it means for the table. */
  lemma VisitFirst(rows: seq<Row>, w: Window, t: Tariff, after: int)
    requires ById(rows) && Select(rows, w, after) != []
    ensures var l := Select(rows, w, after)[0];
            Upto(rows, w, t, l.id) == WithCost(Upto(rows, w, t, after), l.id, Priced(l, t))
  {
    hide Selected, Priced, Select;
    var first := Select(rows, w, after);
    var l := first[0];
    SelectedOnly(rows, w, after, l);
    var k :| 0 <= k < |rows| && rows[k] == l;
    forall i | 0 <= i < |rows|
      ensures Upto(rows, w, t, l.id)[i] == WithCost(Upto(rows, w, t, after), l.id, Priced(l, t))[i]
    {
      PricedColumns(rows[i], t);
      if after < rows[i].id < l.id && Selected(rows[i], w) {
        FirstIsLeast(rows, w, after, i);
      }
      if rows[i].id == l.id {
        SameId(rows, i, k);
      }
    }
  }

  lemma SameId(rows: seq<Row>, i: nat, j: nat)
    requires ById(rows) && i < |rows| && j < |rows| && rows[i].id == rows[j].id
    ensures i == j
  {
  }

  /** Leaving the row alone when nothing changed is the same as writing it back. */
  lemma SkipFirst(rows: seq<Row>, w: Window, t: Tariff, after: int)
    requires ById(rows) && Select(rows, w, after) != [] && UpToDate(Select(rows, w, after)[0], t)
    ensures Upto(rows, w, t, Select(rows, w, after)[0].id) == Upto(rows, w, t, after)
  {
    hide Selected, UpToDate, Select, Cost, StyleOfLog, PeriodOf, CostOf;
    var l := Select(rows, w, after)[0];
    SelectedOnly(rows, w, after, l);
    var k :| 0 <= k < |rows| && rows[k] == l;
    forall i | 0 <= i < |rows|
      ensures Upto(rows, w, t, l.id)[i] == Upto(rows, w, t, after)[i]
    {
      if after < rows[i].id < l.id && Selected(rows[i], w) {
        FirstIsLeast(rows, w, after, i);
      }
      if rows[i].id == l.id {
        SameId(rows, i, k);
      }
    }
  }

  /** The rows past the cursor are still as they were, so the next batch can be read from the table. */
  lemma {:induction false} SelectSame(rows: seq<Row>, w: Window, t: Tariff, after: int)
    ensures Select(Upto(rows, w, t, after), w, after) == Select(rows, w, after)
  {
    hide Selected, Priced;
    if rows != [] {
      PricedColumns(rows[0], t);
      assert Upto(rows, w, t, after)[1..] == Upto(rows[1..], w, t, after);
      SelectSame(rows[1..], w, t, after);
    }
  }

  lemma NothingLeft(rows: seq<Row>, w: Window, t: Tariff, after: int)
    requires ById(rows) && Select(rows, w, after) == []
    ensures Upto(rows, w, t, after) == Recomputed(rows, w, t)
  {
    hide Selected, Priced, Select;
    forall i | 0 <= i < |rows|
      ensures Upto(rows, w, t, after)[i] == Recomputed(rows, w, t)[i]
    {
      if rows[i].id > after && Selected(rows[i], w) {
        FirstIsLeast(rows, w, after, i);
      }
    }
  }

  lemma NothingVisited(rows: seq<Row>, w: Window, t: Tariff)
    requires forall i :: 0 <= i < |rows| ==> rows[i].id > 0
    ensures Upto(rows, w, t, 0) == rows
  {
  }

  const BATCH := 500

  class LogTable {
    var rows: seq<Row>

    constructor (rows: seq<Row>)
      ensures this.rows == rows
    {
      this.rows := rows;
    }

    method RecomputeBatch(w: Window, afterID: int, limit: nat) returns (batch: seq<Row>)
      ensures var all := Select(rows, w, afterID);
              batch == if |all| <= limit then all else all[..limit]
    {
      batch := Select(rows, w, afterID);
      if |batch| > limit {
        batch := batch[..limit];
      }
    }

    /** Writes three columns of one row. */
    method UpdateCost(id: nat, cost: real, style: Style, period: PricePeriod)
      modifies this
      ensures |rows| == |old(rows)|
      ensures forall i :: 0 <= i < |rows| ==>
                rows[i] == if old(rows[i]).id == id then old(rows[i]).(cost := Some(cost), style := style, period := period) else old(rows[i])
    {
      var before := rows;
      rows := seq(|before|, i requires 0 <= i < |before| =>
        if before[i].id == id then before[i].(cost := Some(cost), style := style, period := period) else before[i]);
    }
  }

  /** Visit one row of a batch; says whether it was written. */
  method Visit(table: LogTable, l: Row, t: Tariff) returns (written: bool)
    modifies table
    ensures written <==> !UpToDate(l, t)
    ensures table.rows == if written then WithCost(old(table.rows), l.id, Priced(l, t)) else old(table.rows)
  {
    hide Cost, StyleOfLog, PeriodOf, CostOf;
    var style, cost, period := StyleOfLog(l, t.providers), Cost(l, t), PeriodOf(l, t);
    if cost == CostOf(l) && style == l.style && period == l.period {
      return false;
    }
    table.UpdateCost(l.id, cost, style, period);
    assert table.rows == WithCost(old(table.rows), l.id, Priced(l, t));
    return true;
  }

  /** The cursor loop over batches in id order. */
  method Recompute(table: LogTable, w: Window, t: Tariff) returns (ok: bool, scanned: nat, updated: nat)
    requires ById(table.rows) && forall i :: 0 <= i < |table.rows| ==> table.rows[i].id > 0
    modifies table
    ensures ok <==> !(w.end.Some? && w.end.value < w.start)
    ensures table.rows == if ok then Recomputed(old(table.rows), w, t) else old(table.rows)
    ensures ok ==> scanned == |Select(old(table.rows), w, 0)| && updated == Outdated(Select(old(table.rows), w, 0), t)
  {
    hide Select, Priced, Outdated, UpToDate, ById;
    scanned, updated := 0, 0;
    if w.end.Some? && w.end.value < w.start {
      return false, 0, 0;
    }
    ghost var original := table.rows;
    var afterID: int := 0;
    NothingVisited(original, w, t);
    while true
      invariant table.rows == Upto(original, w, t, afterID)
      invariant Progress(original, w, t, afterID, scanned, updated)
      decreases |Select(original, w, afterID)|
    {
      SelectSame(original, w, t, afterID);
      var batch := table.RecomputeBatch(w, afterID, BATCH);
      if |batch| == 0 {
        break;
      }
      ghost var all, start := Select(original, w, afterID), afterID;
      assert all[0..] == all;
      for i := 0 to |batch|
        invariant table.rows == Upto(original, w, t, afterID)
        invariant Progress(original, w, t, afterID, scanned, updated)
        invariant Select(original, w, afterID) == all[i..]
      {
        var l := batch[i];
        assert all[i..][0] == l && all[i..][1..] == all[i + 1..];
        VisitStep(original, w, t, afterID, scanned, updated);
        var written := Visit(table, l, t);
        afterID := l.id;
        scanned := scanned + 1;
        if written {
          updated := updated + 1;
        }
      }
      if |batch| < BATCH {
        assert all[|all|..] == [];
        break;
      }
    }
    NothingLeft(original, w, t, afterID);
    Finished(original, w, t, afterID, scanned, updated);
    return true, scanned, updated;
  }

  /** What was counted so far and what the cursor has still before it make up the whole. */
  predicate Progress(rows: seq<Row>, w: Window, t: Tariff, after: int, scanned: nat, updated: nat) {
    && scanned + |Select(rows, w, after)| == |Select(rows, w, 0)|
    && updated + Outdated(Select(rows, w, after), t) == Outdated(Select(rows, w, 0), t)
  }

  lemma VisitStep(rows: seq<Row>, w: Window, t: Tariff, after: int, scanned: nat, updated: nat)
    requires ById(rows) && Select(rows, w, after) != [] && Progress(rows, w, t, after, scanned, updated)
    ensures var l := Select(rows, w, after)[0];
            && Select(rows, w, l.id) == Select(rows, w, after)[1..]
            && Progress(rows, w, t, l.id, scanned + 1, if UpToDate(l, t) then updated else updated + 1)
            && Upto(rows, w, t, l.id) ==
               if UpToDate(l, t) then Upto(rows, w, t, after) else WithCost(Upto(rows, w, t, after), l.id, Priced(l, t))
  {
    hide Select, Priced, UpToDate, ById;
    Advance(rows, w, after);
    VisitFirst(rows, w, t, after);
    if UpToDate(Select(rows, w, after)[0], t) {
      SkipFirst(rows, w, t, after);
    }
  }

  lemma Finished(rows: seq<Row>, w: Window, t: Tariff, after: int, scanned: nat, updated: nat)
    requires Progress(rows, w, t, after, scanned, updated) && Select(rows, w, after) == []
    ensures scanned == |Select(rows, w, 0)| && updated == Outdated(Select(rows, w, 0), t)
  {
  }
}
