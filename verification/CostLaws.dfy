/** Which rates apply, what each token adds to a bill, and which rows a recomputation touches, said without the functions that
    compute them. */
module CostLaws {
  import opened Common
  import opened Costs
  import opened PeakWindow

  // ---------- rates ----------

  predicate OverThreshold(p: Price, prompt: int) {
    p.threshold > 0 && prompt > p.threshold
  }

  /** A price without a rule has no off-peak time. */
  predicate IsOffPeak(p: Price, cal: Calendar, at: int) {
    p.window.Some? && ValidRule(p.window.value) && PeriodAt(p.window.value, cal, at) != Peak
  }

  /** The first rate that is set, or else the fallback. */
  function FirstSet(rates: seq<real>, fallback: real): real {
    if rates == [] then fallback else if rates[0] > 0.0 then rates[0] else FirstSet(rates[1..], fallback)
  }

  function If(applies: bool, rate: real): seq<real> {
    if applies then [rate] else []
  }

  lemma FirstOfOne(rate: real, fallback: real)
    ensures FirstSet([], fallback) == fallback
    ensures FirstSet([rate], fallback) == if rate > 0.0 then rate else fallback
  {
    assert [rate][1..] == [];
  }

  lemma FirstOfLayers(above: bool, a: real, below: bool, b: real, fallback: real)
    ensures FirstSet(If(above, a) + If(below, b), fallback) ==
            if above && a > 0.0 then a else if below && b > 0.0 then b else fallback
  {
    FirstOfOne(a, fallback);
    FirstOfOne(b, fallback);
    if above && below {
      assert ([a] + [b])[1..] == [b];
    } else {
      assert If(above, a) + If(below, b) == if above then [a] else if below then [b] else [];
    }
  }

  /** Input and output: the rate above the threshold, then the off-peak one, then the base rate. Cache reads and writes: the rate
      above the threshold, then the one of the period itself, then the input rate in force. */
  lemma RatesByRank(p: Price, cal: Calendar, at: int, prompt: int)
    ensures var r, above, off := RatesAt(p, cal, at, prompt), OverThreshold(p, prompt), IsOffPeak(p, cal, at);
            var period := if off then p.offPeak else p.base;
            && r.input == FirstSet(If(above, p.above.input) + If(off, p.offPeak.input), p.base.input)
            && r.output == FirstSet(If(above, p.above.output) + If(off, p.offPeak.output), p.base.output)
            && r.cacheRead == FirstSet(If(above, p.above.cacheRead) + If(true, period.cacheRead), r.input)
            && r.cacheWrite == FirstSet(If(above, p.above.cacheWrite) + If(true, period.cacheWrite), r.input)
  {
    hide FirstSet, If, PeriodAt;
    var above, off := OverThreshold(p, prompt), IsOffPeak(p, cal, at);
    var period := if off then p.offPeak else p.base;
    var input := RatesAt(p, cal, at, prompt).input;
    FirstOfLayers(above, p.above.input, off, p.offPeak.input, p.base.input);
    FirstOfLayers(above, p.above.output, off, p.offPeak.output, p.base.output);
    FirstOfLayers(above, p.above.cacheRead, true, period.cacheRead, input);
    FirstOfLayers(above, p.above.cacheWrite, true, period.cacheWrite, input);
  }

  // ---------- bills ----------

  /** An amount in the price's currency, in dollars; without an exchange rate a foreign amount is not billed. */
  function InDollars(amount: real, p: Price, usdRate: real): real {
    if !p.cny then amount else if usdRate <= 0.0 then 0.0 else amount / usdRate
  }

  function Part(n: int, rate: real): real {
    n as real * rate
  }

  lemma OneMore(n: int, rate: real)
    ensures Part(n + 1, rate) == Part(n, rate) + rate && Part(0, rate) == 0.0
  {
  }

  lemma DollarsAdd(a: real, b: real, p: Price, usdRate: real)
    ensures InDollars(a + b, p, usdRate) == InDollars(a, p, usdRate) + InDollars(b, p, usdRate)
    ensures InDollars(0.0, p, usdRate) == 0.0
  {
    if usdRate > 0.0 {
      Quotients(a, b, usdRate);
    }
  }

  lemma Quotients(a: real, b: real, u: real)
    requires u > 0.0
    ensures (a + b) / u == a / u + b / u
  {
  }

  /** The four parts of a bill. */
  function Bill(uncached: real, read: real, written: real, completed: real, p: Price, usd: real): real {
    InDollars(uncached + read + written + completed, p, usd)
  }

  lemma CalculateBills(prompt: int, completion: int, cached: int, cacheWrite: int, style: Style, p: Price, cal: Calendar, at: int, usd: real,
                       r: Rates, uncached: int, read: int, written: int)
    requires r == RatesAt(p, cal, at, prompt) && SplitInputTokens(prompt, cached, cacheWrite, style) == (uncached, read, written)
    ensures Calculate(prompt, completion, cached, cacheWrite, style, p, cal, at, usd) ==
            Bill(Part(uncached, r.input), Part(read, r.cacheRead), Part(written, r.cacheWrite), Part(completion, r.output), p, usd)
  {
    hide RatesAt, SplitInputTokens;
  }

  lemma BillsAdd(a: real, b: real, c: real, d: real, a': real, b': real, c': real, d': real, more: real, p: Price, usd: real)
    requires a' + b' + c' + d' == a + b + c + d + more
    ensures Bill(a', b', c', d', p, usd) == Bill(a, b, c, d, p, usd) + InDollars(more, p, usd)
  {
    DollarsAdd(a + b + c + d, more, p, usd);
  }

  /** Nothing costs nothing. */
  lemma NothingCostsNothing(style: Style, p: Price, cal: Calendar, at: int, usd: real)
    ensures Calculate(0, 0, 0, 0, style, p, cal, at, usd) == 0.0
  {
    hide RatesAt;
    DollarsAdd(0.0, 0.0, p, usd);
  }

  /** A completion token adds the output rate. */
  lemma OneMoreCompletion(prompt: int, completion: int, cached: int, cacheWrite: int, style: Style, p: Price, cal: Calendar, at: int, usd: real)
    ensures Calculate(prompt, completion + 1, cached, cacheWrite, style, p, cal, at, usd) ==
            Calculate(prompt, completion, cached, cacheWrite, style, p, cal, at, usd) + InDollars(RatesAt(p, cal, at, prompt).output, p, usd)
  {
    hide RatesAt, Calculate, Bill, InDollars, Part;
    var (uncached, read, written) := SplitInputTokens(prompt, cached, cacheWrite, style);
    var r := RatesAt(p, cal, at, prompt);
    CalculateBills(prompt, completion, cached, cacheWrite, style, p, cal, at, usd, r, uncached, read, written);
    CalculateBills(prompt, completion + 1, cached, cacheWrite, style, p, cal, at, usd, r, uncached, read, written);
    OneMore(completion, r.output);
    var a, b, c := Part(uncached, r.input), Part(read, r.cacheRead), Part(written, r.cacheWrite);
    BillsAdd(a, b, c, Part(completion, r.output), a, b, c, Part(completion + 1, r.output), r.output, p, usd);
  }

  /** An input token adds the input rate, unless it changes the rates; for OpenAI as long as no more are cached than sent. */
  lemma OneMorePrompt(prompt: int, completion: int, cached: int, cacheWrite: int, style: Style, p: Price, cal: Calendar, at: int, usd: real)
    requires style == AnthropicStyle || cached <= prompt
    requires RatesAt(p, cal, at, prompt + 1) == RatesAt(p, cal, at, prompt)
    ensures Calculate(prompt + 1, completion, cached, cacheWrite, style, p, cal, at, usd) ==
            Calculate(prompt, completion, cached, cacheWrite, style, p, cal, at, usd) + InDollars(RatesAt(p, cal, at, prompt).input, p, usd)
  {
    hide RatesAt, Calculate, Bill, InDollars, Part;
    var (uncached, read, written) := SplitInputTokens(prompt, cached, cacheWrite, style);
    var r := RatesAt(p, cal, at, prompt);
    CalculateBills(prompt, completion, cached, cacheWrite, style, p, cal, at, usd, r, uncached, read, written);
    CalculateBills(prompt + 1, completion, cached, cacheWrite, style, p, cal, at, usd, r, uncached + 1, read, written);
    OneMore(uncached, r.input);
    var b, c, d := Part(read, r.cacheRead), Part(written, r.cacheWrite), Part(completion, r.output);
    BillsAdd(Part(uncached, r.input), b, c, d, Part(uncached + 1, r.input), b, c, d, r.input, p, usd);
  }

  /** A cached token adds the cache-read rate; for OpenAI it is one of the tokens sent, so the input rate is saved. */
  lemma OneMoreCached(prompt: int, completion: int, cached: int, cacheWrite: int, style: Style, p: Price, cal: Calendar, at: int, usd: real)
    requires style == AnthropicStyle || cached < prompt
    ensures Calculate(prompt, completion, cached + 1, cacheWrite, style, p, cal, at, usd) ==
            Calculate(prompt, completion, cached, cacheWrite, style, p, cal, at, usd) + InDollars(RatesAt(p, cal, at, prompt).cacheRead, p, usd)
            - if style == AnthropicStyle then 0.0 else InDollars(RatesAt(p, cal, at, prompt).input, p, usd)
  {
    hide RatesAt, Calculate, Bill, InDollars, Part;
    var (uncached, read, written) := SplitInputTokens(prompt, cached, cacheWrite, style);
    var uncached' := if style == AnthropicStyle then uncached else uncached - 1;
    var r := RatesAt(p, cal, at, prompt);
    CalculateBills(prompt, completion, cached, cacheWrite, style, p, cal, at, usd, r, uncached, read, written);
    CalculateBills(prompt, completion, cached + 1, cacheWrite, style, p, cal, at, usd, r, uncached', read + 1, written);
    OneMore(read, r.cacheRead);
    OneMore(uncached - 1, r.input);
    var a, b, c, d := Part(uncached, r.input), Part(read, r.cacheRead), Part(written, r.cacheWrite), Part(completion, r.output);
    var a', b' := Part(uncached', r.input), Part(read + 1, r.cacheRead);
    BillsAdd(a', b, c, d, a', b', c, d, r.cacheRead, p, usd);
    if style != AnthropicStyle {
      BillsAdd(a', b, c, d, a, b, c, d, r.input, p, usd);
    }
  }

  /** A cache write adds its rate for Anthropic, and nothing otherwise. */
  lemma OneMoreCacheWrite(prompt: int, completion: int, cached: int, cacheWrite: int, style: Style, p: Price, cal: Calendar, at: int, usd: real)
    ensures Calculate(prompt, completion, cached, cacheWrite + 1, style, p, cal, at, usd) ==
            Calculate(prompt, completion, cached, cacheWrite, style, p, cal, at, usd) +
            if style == AnthropicStyle then InDollars(RatesAt(p, cal, at, prompt).cacheWrite, p, usd) else 0.0
  {
    hide RatesAt, Calculate, Bill, InDollars, Part;
    var (uncached, read, written) := SplitInputTokens(prompt, cached, cacheWrite, style);
    var written' := if style == AnthropicStyle then written + 1 else written;
    var r := RatesAt(p, cal, at, prompt);
    CalculateBills(prompt, completion, cached, cacheWrite, style, p, cal, at, usd, r, uncached, read, written);
    CalculateBills(prompt, completion, cached, cacheWrite + 1, style, p, cal, at, usd, r, uncached, read, written');
    if style == AnthropicStyle {
      OneMore(written, r.cacheWrite);
      var a, b, d := Part(uncached, r.input), Part(read, r.cacheRead), Part(completion, r.output);
      BillsAdd(a, b, Part(written, r.cacheWrite), d, a, b, Part(written', r.cacheWrite), d, r.cacheWrite, p, usd);
    }
  }

  // ---------- rows ----------

  /** A row is counted the Anthropic way when it has cache writes, or its upstream speaks messages: by its channel's provider
      when it was converted and the channel is known, and by its own protocol otherwise. */
  lemma StyleExactly(l: Row, providers: map<int, Provider>)
    ensures StyleOfLog(l, providers) == AnthropicStyle <==>
            || l.cacheWrite > 0
            || (l.protocol == Messages && (l.native || l.channel !in providers))
            || (!l.native && l.channel in providers && providers[l.channel] == AnthropicProvider)
    ensures StyleOfLog(l, providers) != NoStyle
  {
  }

  /** The rows a run may change: those from `start` up to but not at `end`, and with `onlyMissing` only those without a positive
      cost. Each then has the cost and period of its model's price; without a price it costs nothing and keeps its period. */
  lemma WindowExactly(rows: seq<Row>, w: Window, t: Tariff, i: nat)
    requires i < |rows|
    ensures var l, l' := rows[i], Recomputed(rows, w, t)[i];
            if w.start <= l.at && (w.end == None || l.at < w.end.value) && !(w.onlyMissing && l.cost.Some? && l.cost.value > 0.0) then
              match t.prices(l.model)
              case None => CostOf(l') == 0.0 && l'.period == l.period
              case Some(p) =>
                && CostOf(l') == Calculate(l.prompt, l.completion, l.cached, l.cacheWrite, l'.style, p, t.calendar, l.at, t.usdRate)
                && l'.period == if p.window.Some? && ValidRule(p.window.value) then At(PeriodAt(p.window.value, t.calendar, l.at)) else NoPeriod
            else l' == l
  {
    hide Calculate, PeriodAt, StyleOfLog;
  }
}
