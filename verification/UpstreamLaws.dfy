/** What the parsers and the extraction find in a payload, said without their definitions. */
module UpstreamLaws {
  import opened Common
  import opened Folds
  import opened Upstream

  // ---------- keys ----------

  function Digit(c: char): int {
    c as int - '0' as int
  }

  /** The number a string of digits stands for. */
  function ValueOf(s: string): int {
    if s == "" then 0 else 10 * ValueOf(s[..|s| - 1]) + Digit(s[|s| - 1])
  }

  predicate IsDigits(s: string) {
    s != "" && forall i :: 0 <= i < |s| ==> '0' <= s[i] <= '9'
  }

  lemma DigitOf(d: nat)
    requires d < 10
    ensures '0' <= "0123456789"[d] <= '9' && Digit("0123456789"[d]) == d
  {
  }

  lemma OneMoreDigit(front: string, c: char)
    requires '0' <= c <= '9' && forall i :: 0 <= i < |front| ==> '0' <= front[i] <= '9'
    ensures IsDigits(front + [c]) && ValueOf(front + [c]) == 10 * ValueOf(front) + Digit(c)
  {
    assert (front + [c])[..|front|] == front;
  }

  /** Numbers are written in decimal, without leading zeros. */
  lemma {:induction false} NumbersAreDecimal(n: nat)
    ensures IsDigits(FormatNat(n)) && ValueOf(FormatNat(n)) == n
    ensures n > 0 ==> FormatNat(n)[0] != '0'
  {
    hide IsDigits, ValueOf;
    DigitOf(n % 10);
    var c := "0123456789"[n % 10];
    if n < 10 {
      assert FormatNat(n) == "" + [c];
      OneMoreDigit("", c);
      NoDigits();
    } else {
      NumbersAreDecimal(n / 10);
      DigitsAre(FormatNat(n / 10));
      OneMoreDigit(FormatNat(n / 10), c);
    }
  }

  lemma NoDigits()
    ensures ValueOf("") == 0
  {
  }

  lemma DigitsAre(s: string)
    requires IsDigits(s)
    ensures s != "" && forall i :: 0 <= i < |s| ==> '0' <= s[i] <= '9'
  {
  }

  /** The key tells indexes apart, and a missing index counts as 0. */
  lemma KeysTellIndexesApart(a: Option<int>, b: Option<int>)
    ensures IntKey(a) == IntKey(b) <==> (if a.Some? then a.value else 0) == (if b.Some? then b.value else 0)
  {
    KeyOfInt(a);
    KeyOfInt(b);
  }

  function ValueOfKey(key: string): int {
    if key != "" && key[0] == '-' then -ValueOf(key[1..]) else ValueOf(key)
  }

  lemma KeyOfInt(a: Option<int>)
    ensures ValueOfKey(IntKey(a)) == if a.Some? then a.value else 0
  {
    hide FormatNat, ValueOf;
    var i := if a.Some? then a.value else 0;
    NumbersAreDecimal(if i < 0 then -i else i);
    ZeroIs();
    if i < 0 {
      assert FormatInt(i)[1..] == FormatNat(-i);
    } else {
      assert FormatInt(i) == FormatNat(i);
      assert FormatNat(i)[0] != '-';
    }
  }

  lemma ZeroIs()
    ensures FormatNat(0) == "0" && ValueOf("0") == 0
  {
    assert ValueOf("0"[..0]) == 0;
  }

  // ---------- tool calls of chat chunks ----------

  /** All tool-call deltas of a chunk, in order. */
  function Deltas(choices: seq<Choice>): seq<ToolCallDelta> {
    if choices == [] then [] else Deltas(choices[..|choices| - 1]) + choices[|choices| - 1].toolCalls
  }

  predicate IsEvent(p: Payload) {
    p.Chunk? && p.typ in {"content_block_start", "content_block_delta", "response.output_item.added",
                          "response.function_call_arguments.delta"}
  }

  predicate Announces(tc: ToolCallDelta) {
    tc.id != "" || tc.name != ""
  }

  /** How many events a delta is worth: one for an id or a name, one for arguments. */
  function Worth(tc: ToolCallDelta): nat {
    (if Announces(tc) then 1 else 0) + if tc.arguments != "" then 1 else 0
  }

  function WorthOf(tcs: seq<ToolCallDelta>): nat {
    if tcs == [] then 0 else WorthOf(tcs[..|tcs| - 1]) + Worth(tcs[|tcs| - 1])
  }

  /** The events `evs` are those of the deltas, in order: each delta's announcement, then its fragment. */
  ghost predicate SaysDeltas(evs: seq<ToolEvent>, tcs: seq<ToolCallDelta>) {
    |evs| == WorthOf(tcs) && forall k :: 0 <= k < |tcs| ==> SaysDelta(evs, tcs, k)
  }

  predicate SaysDelta(evs: seq<ToolEvent>, tcs: seq<ToolCallDelta>, k: nat)
    requires k < |tcs|
  {
    var at, tc := WorthOf(tcs[..k]), tcs[k];
    && at + Worth(tc) <= |evs|
    && (Announces(tc) ==> evs[at] == Start(IntKey(tc.index), tc.id, tc.name))
    && (tc.arguments != "" ==> evs[at + Worth(tc) - 1] == Args(IntKey(tc.index), tc.arguments))
  }

  lemma {:induction false} WorthConcat(a: seq<ToolCallDelta>, b: seq<ToolCallDelta>)
    ensures WorthOf(a + b) == WorthOf(a) + WorthOf(b)
  {
    if b == [] {
      assert a + b == a;
    } else {
      assert (a + b)[..|a + b| - 1] == a + b[..|b| - 1];
      WorthConcat(a, b[..|b| - 1]);
    }
  }

  lemma SaysConcat(evs: seq<ToolEvent>, tcs: seq<ToolCallDelta>, more: seq<ToolEvent>, tcs': seq<ToolCallDelta>)
    requires SaysDeltas(evs, tcs) && SaysDeltas(more, tcs')
    ensures SaysDeltas(evs + more, tcs + tcs')
  {
    hide WorthOf;
    WorthConcat(tcs, tcs');
    forall k | 0 <= k < |tcs + tcs'|
      ensures SaysDelta(evs + more, tcs + tcs', k)
    {
      if k < |tcs| {
        assert SaysDelta(evs, tcs, k);
        assert (tcs + tcs')[..k] == tcs[..k];
      } else {
        assert SaysDelta(more, tcs', k - |tcs|);
        assert (tcs + tcs')[..k] == tcs + tcs'[..k - |tcs|];
        WorthConcat(tcs, tcs'[..k - |tcs|]);
      }
    }
  }

  lemma NothingSays()
    ensures SaysDeltas([], []) && Deltas([]) == []
  {
  }

  lemma OneDeltaSays(tc: ToolCallDelta)
    ensures SaysDeltas(CallEvents(tc), [tc])
  {
    assert [tc][..0] == [];
    assert WorthOf([tc]) == Worth(tc);
  }

  lemma {:induction false} CallsSay(tcs: seq<ToolCallDelta>)
    ensures SaysDeltas(CallsEvents(tcs), tcs)
  {
    hide SaysDeltas, CallEvents;
    if tcs == [] {
      NothingSays();
    } else {
      var init, tc := tcs[..|tcs| - 1], tcs[|tcs| - 1];
      CallsSay(init);
      OneDeltaSays(tc);
      SaysConcat(CallsEvents(init), init, CallEvents(tc), [tc]);
      assert init + [tc] == tcs;
    }
  }

  lemma {:induction false} ChoicesSay(choices: seq<Choice>)
    ensures SaysDeltas(ChoicesEvents(choices), Deltas(choices))
  {
    hide SaysDeltas, CallsEvents;
    if choices == [] {
      NothingSays();
    } else {
      var init, last := choices[..|choices| - 1], choices[|choices| - 1];
      ChoicesSay(init);
      CallsSay(last.toolCalls);
      SaysConcat(ChoicesEvents(init), Deltas(init), CallsEvents(last.toolCalls), last.toolCalls);
    }
  }

  /** A chat chunk's events are its deltas' announcements and fragments, each announcement before its own fragment. */
  lemma ChunkEventsAreItsDeltas(p: Payload)
    requires p.Chunk? && !IsEvent(p)
    ensures SaysDeltas(ToolEvents(p), Deltas(p.choices))
  {
    ChoicesSay(p.choices);
    assert ChoicesEvents(p.choices) + [] == ChoicesEvents(p.choices);
  }

  /** A payload with both choices and an event has the events of the one, then of the other. */
  lemma ChoicesAndEvents(p: Payload)
    requires p.Chunk?
    ensures ToolEvents(p) == ToolEvents(p.(typ := "")) + ToolEvents(p.(choices := []))
  {
  }

  // ---------- arguments ----------

  function FragmentOf(key: string): ToolEvent -> string {
    (e: ToolEvent) => if e.Args? && e.key == key then e.args else ""
  }

  function AnyFragment(): ToolEvent -> string {
    (e: ToolEvent) => if e.Args? then e.args else ""
  }

  function ArgumentsAt(index: int): ToolCallDelta -> string {
    (tc: ToolCallDelta) => if (if tc.index.Some? then tc.index.value else 0) == index then tc.arguments else ""
  }

  function AnyArguments(): ToolCallDelta -> string {
    (tc: ToolCallDelta) => tc.arguments
  }

  /** Everything the events carry under a key. */
  function ArgsOfKey(evs: seq<ToolEvent>, key: string): string {
    Concat(Map(FragmentOf(key), evs))
  }

  function AllArgs(evs: seq<ToolEvent>): string {
    Concat(Map(AnyFragment(), evs))
  }

  lemma OneDeltaCarries(tc: ToolCallDelta, index: int)
    ensures ArgsOfKey(CallEvents(tc), IntKey(Some(index))) == ArgumentsAt(index)(tc)
    ensures AllArgs(CallEvents(tc)) == tc.arguments
  {
    hide Concat, Map;
    var key := IntKey(tc.index);
    KeysTellIndexesApart(tc.index, Some(index));
    hide IntKey;
    var first := if tc.id != "" || tc.name != "" then [Start(key, tc.id, tc.name)] else [];
    var second := if tc.arguments != "" then [Args(key, tc.arguments)] else [];
    ConcatMap(FragmentOf(IntKey(Some(index))), first, second);
    ConcatMap(AnyFragment(), first, second);
    ConcatMapOne(FragmentOf(IntKey(Some(index))), Start(key, tc.id, tc.name));
    ConcatMapOne(FragmentOf(IntKey(Some(index))), Args(key, tc.arguments));
    ConcatMapOne(AnyFragment(), Start(key, tc.id, tc.name));
    ConcatMapOne(AnyFragment(), Args(key, tc.arguments));
  }

  lemma {:induction false} CallsCarry(tcs: seq<ToolCallDelta>, index: int)
    ensures ArgsOfKey(CallsEvents(tcs), IntKey(Some(index))) == Concat(Map(ArgumentsAt(index), tcs))
    ensures AllArgs(CallsEvents(tcs)) == Concat(Map(AnyArguments(), tcs)) == CallArgs(tcs)
  {
    hide Concat, Map, IntKey, CallEvents;
    if tcs == [] {
      ConcatMapOne(FragmentOf(IntKey(Some(index))), Start("", "", ""));
      ConcatMapOne(AnyFragment(), Start("", "", ""));
      NoDeltas(index);
    } else {
      var init, tc := tcs[..|tcs| - 1], tcs[|tcs| - 1];
      CallsCarry(init, index);
      OneDeltaCarries(tc, index);
      ConcatMap(FragmentOf(IntKey(Some(index))), CallsEvents(init), CallEvents(tc));
      ConcatMap(AnyFragment(), CallsEvents(init), CallEvents(tc));
      ConcatMap(ArgumentsAt(index), init, [tc]);
      ConcatMap(AnyArguments(), init, [tc]);
      ConcatMapOne(ArgumentsAt(index), tc);
      ConcatMapOne(AnyArguments(), tc);
      assert init + [tc] == tcs;
    }
  }

  lemma NoDeltas(index: int)
    ensures Concat(Map(ArgumentsAt(index), [])) == "" && Concat(Map(AnyArguments(), [])) == ""
  {
  }

  lemma {:induction false} ChoicesCarry(choices: seq<Choice>, index: int)
    ensures ArgsOfKey(ChoicesEvents(choices), IntKey(Some(index))) == Concat(Map(ArgumentsAt(index), Deltas(choices)))
    ensures AllArgs(ChoicesEvents(choices)) == Concat(Map(AnyArguments(), Deltas(choices))) == ChoiceArgs(choices)
  {
    hide Concat, Map, IntKey, CallsEvents, CallArgs;
    if choices == [] {
      ConcatMapOne(FragmentOf(IntKey(Some(index))), Start("", "", ""));
      ConcatMapOne(AnyFragment(), Start("", "", ""));
      NoDeltas(index);
    } else {
      var init, tcs := choices[..|choices| - 1], choices[|choices| - 1].toolCalls;
      ChoicesCarry(init, index);
      CallsCarry(tcs, index);
      ConcatMap(FragmentOf(IntKey(Some(index))), ChoicesEvents(init), CallsEvents(tcs));
      ConcatMap(AnyFragment(), ChoicesEvents(init), CallsEvents(tcs));
      ConcatMap(ArgumentsAt(index), Deltas(init), tcs);
      ConcatMap(AnyArguments(), Deltas(init), tcs);
    }
  }

  /** The fragments under an index's key are the arguments of the deltas with that index, in order, and all fragments
      together are all arguments. */
  lemma ChunkArgumentsByIndex(p: Payload, index: int)
    requires p.Chunk? && !IsEvent(p)
    ensures ArgsOfKey(ToolEvents(p), IntKey(Some(index))) == Concat(Map(ArgumentsAt(index), Deltas(p.choices)))
    ensures AllArgs(ToolEvents(p)) == Concat(Map(AnyArguments(), Deltas(p.choices))) == ChoiceArgs(p.choices)
  {
    ChoicesCarry(p.choices, index);
    assert ChoicesEvents(p.choices) + [] == ChoicesEvents(p.choices);
  }

  // ---------- events of the other two protocols ----------

  /** An argument delta the extraction cannot give to a call: without an item, or of another kind than input JSON. */
  predicate Unkeyed(p: Payload) {
    && p.Chunk?
    && ((p.typ == "response.function_call_arguments.delta" && p.itemId == "" && p.delta.StringDelta? && p.delta.s != "")
        || (p.typ == "content_block_delta" && p.delta.ObjectDelta? && p.delta.typ != "input_json_delta" && p.delta.partialJson != ""))
  }

  /** Whatever the protocol, the extraction finds the argument text the parser counts, and before it that of choices the messages
      parser does not look at, exactly when it can give the text to a call. */
  lemma ArgumentsAreConserved(d: Dialect, p: Payload)
    requires Decodes(d, p)
    ensures AllArgs(ToolEvents(p)) == (if d.OpenAI? then "" else ChoiceArgs(p.choices)) + ArgsOf(d, p) <==> !Unkeyed(p)
  {
    hide Concat, Map, IntKey, ChoiceArgs;
    ChoicesCarry(p.choices, 0);
    ConcatMap(AnyFragment(), ChoicesEvents(p.choices), TypedEvents(p));
    TypedCarries(p);
    AfterPrefix(ChoiceArgs(p.choices), AllArgs(TypedEvents(p)), TypedArgs(p));
  }

  /** The argument text of an event. */
  function TypedArgs(p: Payload): string
    requires p.Chunk?
  {
    if p.typ == "response.function_call_arguments.delta" && p.delta.StringDelta? then p.delta.s
    else if p.typ == "content_block_delta" && p.delta.ObjectDelta? then p.delta.partialJson
    else ""
  }

  lemma AfterPrefix(prefix: string, a: string, b: string)
    ensures prefix + a == prefix + b <==> a == b
  {
    assert (prefix + a)[|prefix|..] == a && (prefix + b)[|prefix|..] == b;
  }

  lemma TypedCarries(p: Payload)
    requires p.Chunk?
    ensures AllArgs(TypedEvents(p)) == if Unkeyed(p) then "" else TypedArgs(p)
  {
    hide Concat, Map, IntKey;
    ConcatMapOne(AnyFragment(), Start("", "", ""));
    if |TypedEvents(p)| == 1 {
      var e := TypedEvents(p)[0];
      assert TypedEvents(p) == [e];
      ConcatMapOne(AnyFragment(), e);
    }
  }

  /** A block or item that starts a call, with the id and name it carries. */
  predicate Starts(p: Payload, key: string, id: string, name: string) {
    && p.Chunk?
    && ((p.typ == "content_block_start" && p.block == Some(Block("tool_use", id, name)) && key == IntKey(p.index))
        || (p.typ == "response.output_item.added" && p.item == Some(Item(key, "function_call", id, name))))
  }

  /** The key an argument event goes under. */
  function KeyOf(p: Payload): string
    requires p.Chunk?
  {
    if p.typ == "content_block_delta" then IntKey(p.index) else p.itemId
  }

  /** Without choices a payload says one thing at most: a call starts exactly when its block or item does, and a fragment is
      all of the argument text, under the key of its block or item. */
  lemma EventsSayOneThing(p: Payload, e: ToolEvent)
    requires p.Chunk? && p.choices == []
    ensures |ToolEvents(p)| <= 1
    ensures e.Start? ==> (e in ToolEvents(p) <==> Starts(p, e.key, e.id, e.name))
    ensures e in ToolEvents(p) && e.Args? ==> e.args == AllArgs(ToolEvents(p)) && e.key == KeyOf(p)
  {
    hide Concat, Map, IntKey;
    if |ToolEvents(p)| == 1 {
      assert ToolEvents(p) == [ToolEvents(p)[0]];
      ConcatMapOne(AnyFragment(), ToolEvents(p)[0]);
    }
  }

  // ---------- text and finish reason ----------

  lemma {:induction false} ContentIsTheChoices(choices: seq<Choice>)
    ensures ContentOf(choices) == Concat(Map((c: Choice) => c.content, choices))
  {
    var content := (c: Choice) => c.content;
    if choices != [] {
      MapFront(content, choices);
      ContentIsTheChoices(choices[..|choices| - 1]);
    }
  }

  /** A payload's text: the choices' contents in order, a responses text delta, or a messages text delta; a payload whose delta
      has the form of the other dialect says nothing. */
  lemma TextIsTheDeltas(p: Payload)
    ensures p.Chunk? && !p.delta.ObjectDelta? ==>
              TextOf(OpenAI, p) == Concat(Map((c: Choice) => c.content, p.choices)) +
                                   if p.typ == "response.output_text.delta" && p.delta.StringDelta? then p.delta.s else ""
    ensures p.Chunk? && p.delta.ObjectDelta? ==> TextOf(Anthropic, p) == if p.typ == "content_block_delta" then p.delta.text else ""
    ensures p.Garbage? || p.delta.ObjectDelta? ==> TextOf(OpenAI, p) == ArgsOf(OpenAI, p) == ""
    ensures p.Garbage? || !p.delta.ObjectDelta? ==> TextOf(Anthropic, p) == ArgsOf(Anthropic, p) == ""
  {
    if p.Chunk? {
      ContentIsTheChoices(p.choices);
    }
  }

  /** `r` is the last finish reason among the choices that is not empty. */
  ghost predicate IsLastReason(choices: seq<Choice>, r: string) {
    r != "" && exists i :: 0 <= i < |choices| && choices[i].finishReason == r && forall j :: i < j < |choices| ==> choices[j].finishReason == ""
  }

  predicate NoReasons(choices: seq<Choice>) {
    forall i :: 0 <= i < |choices| ==> choices[i].finishReason == ""
  }

  lemma ReasonsSnoc(init: seq<Choice>, last: Choice, r: string)
    ensures NoReasons(init + [last]) <==> NoReasons(init) && last.finishReason == ""
    ensures last.finishReason == "" && IsLastReason(init, r) ==> IsLastReason(init + [last], r)
    ensures last.finishReason != "" ==> IsLastReason(init + [last], last.finishReason)
  {
    var all := init + [last];
    assert all[|init|] == last && forall i :: 0 <= i < |init| ==> all[i] == init[i];
    if last.finishReason == "" && IsLastReason(init, r) {
      var i :| 0 <= i < |init| && init[i].finishReason == r && forall j :: i < j < |init| ==> init[j].finishReason == "";
      assert all[i].finishReason == r;
    }
  }

  lemma {:induction false} LastReason(finish: string, choices: seq<Choice>)
    ensures if NoReasons(choices) then LastFinish(finish, choices) == finish else IsLastReason(choices, LastFinish(finish, choices))
  {
    if choices != [] {
      var init, last := choices[..|choices| - 1], choices[|choices| - 1];
      LastReason(finish, init);
      hide NoReasons, IsLastReason;
      ReasonsSnoc(init, last, LastFinish(finish, init));
      SnocIs(init, last, choices);
    }
  }

  /** The finish reason is the last one sent: by a choice, or by the end of a message. */
  lemma FinishIsTheLast(finish: string, p: Payload)
    requires p.Chunk?
    ensures !p.delta.ObjectDelta? ==>
              if NoReasons(p.choices) then FinishAfter(OpenAI, finish, p) == finish
              else IsLastReason(p.choices, FinishAfter(OpenAI, finish, p))
    ensures p.delta.ObjectDelta? ==>
              FinishAfter(OpenAI, finish, p) == finish &&
              FinishAfter(Anthropic, finish, p) == if p.typ == "message_delta" && p.delta.stopReason != "" then p.delta.stopReason else finish
    ensures p.delta.StringDelta? ==> FinishAfter(Anthropic, finish, p) == finish
  {
    hide IsLastReason, NoReasons, LastFinish;
    LastReason(finish, p.choices);
  }

  // ---------- usage ----------

  function UsageOf(d: Dialect, ps: seq<Payload>): Usage {
    if ps == [] then Usage(0, 0, 0, 0, 0) else UsageAfter(d, UsageOf(d, ps[..|ps| - 1]), ps[|ps| - 1])
  }

  /** A report by chat names, and one by the other two protocols' names only. */
  predicate ByChatNames(r: RawUsage) {
    r.promptTokens.Some? || r.completionTokens.Some?
  }

  predicate ByOtherNames(r: RawUsage) {
    !ByChatNames(r) && (r.inputTokens.Some? || r.outputTokens.Some?)
  }

  /** Chat names win over the other two protocols' and a cache count of its own over the one inside the details. */
  lemma ReportedCounts(r: RawUsage)
    ensures var u := ToUsage(r);
            && (ByChatNames(r) ==> u.prompt == OrZero(r.promptTokens) && u.completion == OrZero(r.completionTokens))
            && (ByOtherNames(r) ==> u.prompt == OrZero(r.inputTokens) && u.completion == OrZero(r.outputTokens))
            && (ByChatNames(r) ==> u.cached == OrZero(r.promptCached) && u.cacheWrite == 0)
            && (ByOtherNames(r) ==> u.cacheWrite == OrZero(r.cacheCreation))
            && (ByOtherNames(r) ==> u.cached == OrZero(if r.cacheRead.Some? then r.cacheRead else r.inputCached))
            && TotalIs(r, u)
  {
  }

  /** A missing total is what the parts add up to. */
  predicate TotalIs(r: RawUsage, u: Usage) {
    if !ByChatNames(r) && !ByOtherNames(r) then u == Usage(0, 0, 0, 0, 0)
    else u.total == if OrZero(r.totalTokens) != 0 then OrZero(r.totalTokens) else u.prompt + u.completion
  }

  /** `ps[k]` is the last payload with the property. */
  ghost predicate IsLast(ps: seq<Payload>, k: nat, p: Payload -> bool) {
    k < |ps| && p(ps[k]) && forall j :: k < j < |ps| ==> !p(ps[j])
  }

  lemma LastOfFront(ps: seq<Payload>, k: nat, p: Payload -> bool)
    requires IsLast(ps, k, p)
    ensures if k == |ps| - 1 then p(ps[|ps| - 1]) else !p(ps[|ps| - 1]) && IsLast(ps[..|ps| - 1], k, p)
  {
  }

  function ReportsInChunk(): Payload -> bool {
    (p: Payload) => Decodes(OpenAI, p) && (p.usage.Some? || p.responseUsage.Some?)
  }

  function ReportsAtStart(): Payload -> bool {
    (p: Payload) => Decodes(Anthropic, p) && p.typ == "message_start" && p.messageUsage.Some?
  }

  function ReportsAtEnd(): Payload -> bool {
    (p: Payload) => Decodes(Anthropic, p) && p.typ == "message_delta" && p.usage.Some?
  }

  /** Chat and responses: the usage is the last reported one. */
  lemma {:induction false} UsageIsTheLastReported(ps: seq<Payload>, k: nat)
    requires IsLast(ps, k, ReportsInChunk())
    ensures UsageOf(OpenAI, ps) == ToUsage(if ps[k].usage.Some? then ps[k].usage.value else ps[k].responseUsage.value)
  {
    hide ToUsage;
    LastOfFront(ps, k, ReportsInChunk());
    if k < |ps| - 1 {
      UsageIsTheLastReported(ps[..|ps| - 1], k);
    }
  }

  /** Messages: input counts come from the start and output counts from the end of the message, and the total is their sum. */
  lemma {:induction false} UsageOfAMessage(ps: seq<Payload>, start: nat, end: nat)
    requires start < end && IsLast(ps, start, ReportsAtStart()) && IsLast(ps, end, ReportsAtEnd())
    ensures var u, first, last := UsageOf(Anthropic, ps), ToUsage(ps[start].messageUsage.value), ToUsage(ps[end].usage.value);
            && u.prompt == first.prompt && u.cached == first.cached && u.cacheWrite == first.cacheWrite
            && u.completion == last.completion && u.total == first.prompt + last.completion
  {
    hide ToUsage;
    LastOfFront(ps, start, ReportsAtStart());
    LastOfFront(ps, end, ReportsAtEnd());
    if end < |ps| - 1 {
      UsageOfAMessage(ps[..|ps| - 1], start, end);
    } else {
      UsageOfTheStart(ps[..|ps| - 1], start);
    }
  }

  lemma {:induction false} UsageOfTheStart(ps: seq<Payload>, start: nat)
    requires IsLast(ps, start, ReportsAtStart())
    ensures var u, first := UsageOf(Anthropic, ps), ToUsage(ps[start].messageUsage.value);
            u.prompt == first.prompt && u.cached == first.cached && u.cacheWrite == first.cacheWrite
  {
    hide ToUsage;
    LastOfFront(ps, start, ReportsAtStart());
    if start < |ps| - 1 {
      UsageOfTheStart(ps[..|ps| - 1], start);
    }
  }
}
