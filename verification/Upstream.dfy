/** Upstream stream payloads, the incremental text parsers of internal/provider/usage.go and the
    tool-call extraction of internal/provider/convert_stream.go, together with what a whole
    upstream stream means: its text and its tool calls. */
module Upstream {
  import opened Common

  /** The two parsers: Anthropic messages, and OpenAI chat/completions or responses. */
  datatype Dialect = OpenAI | Anthropic

  /** One SSE data payload after JSON decoding. Only `delta` is polymorphic on the wire: a string for
      responses events, an object for Anthropic events. */
  datatype Payload =
    | Garbage
    | Chunk(typ: string, index: Option<int>, itemId: string, item: Option<Item>, block: Option<Block>,
            delta: Delta, choices: seq<Choice>, usage: Option<RawUsage>, responseUsage: Option<RawUsage>,
            messageUsage: Option<RawUsage>)

  datatype Item = Item(id: string, typ: string, callId: string, name: string)
  datatype Block = Block(typ: string, id: string, name: string)
  datatype Delta =
    | NoDelta
    | StringDelta(s: string)
    | ObjectDelta(typ: string, text: string, partialJson: string, stopReason: string)
  datatype Choice = Choice(content: string, toolCalls: seq<ToolCallDelta>, finishReason: string)
  datatype ToolCallDelta = ToolCallDelta(index: Option<int>, id: string, name: string, arguments: string)

  /** Token counts as the three protocols report them; the cached ones are those inside their details object. */
  datatype RawUsage = RawUsage(promptTokens: Option<int>, completionTokens: Option<int>, totalTokens: Option<int>,
                               promptCached: Option<int>, inputTokens: Option<int>, outputTokens: Option<int>,
                               inputCached: Option<int>, cacheCreation: Option<int>, cacheRead: Option<int>)
  datatype Usage = Usage(prompt: int, completion: int, total: int, cached: int, cacheWrite: int)

  /** A tool-call event, the same for all three upstream protocols. */
  datatype ToolEvent = Start(key: string, id: string, name: string) | Args(key: string, args: string)

  function FormatNat(n: nat): string
  {
    (if n < 10 then "" else FormatNat(n / 10)) + ["0123456789"[n % 10]]
  }

  function FormatInt(i: int): string {
    if i < 0 then "-" + FormatNat(-i) else FormatNat(i)
  }

  // ---------- text and finish reason ----------

  function ContentOf(choices: seq<Choice>): string {
    if choices == [] then "" else ContentOf(choices[..|choices| - 1]) + choices[|choices| - 1].content
  }

  function LastFinish(finish: string, choices: seq<Choice>): string {
    if choices == [] then finish
    else
      var c := choices[|choices| - 1];
      if c.finishReason != "" then c.finishReason else LastFinish(finish, choices[..|choices| - 1])
  }

  /** The parser decodes `delta` into one fixed type, so a delta of the other kind makes it skip the payload. */
  predicate Decodes(d: Dialect, p: Payload) {
    p.Chunk? && if d.OpenAI? then !p.delta.ObjectDelta? else !p.delta.StringDelta?
  }

  /** The output text one payload contributes. */
  function TextOf(d: Dialect, p: Payload): string {
    if !Decodes(d, p) then ""
    else if d.OpenAI? then
      ContentOf(p.choices) +
      (if p.typ == "response.output_text.delta" && p.delta.StringDelta? then p.delta.s else "")
    else if p.typ == "content_block_delta" && p.delta.ObjectDelta? then p.delta.text
    else ""
  }

  function FinishAfter(d: Dialect, finish: string, p: Payload): string {
    if !Decodes(d, p) then finish
    else if d.OpenAI? then LastFinish(finish, p.choices)
    else if p.typ == "message_delta" && p.delta.ObjectDelta? && p.delta.stopReason != "" then p.delta.stopReason
    else finish
  }

  function CallArgs(tcs: seq<ToolCallDelta>): string {
    if tcs == [] then "" else CallArgs(tcs[..|tcs| - 1]) + tcs[|tcs| - 1].arguments
  }

  function ChoiceArgs(choices: seq<Choice>): string {
    if choices == [] then "" else ChoiceArgs(choices[..|choices| - 1]) + CallArgs(choices[|choices| - 1].toolCalls)
  }

  /** The tool-argument text one payload contributes. */
  function ArgsOf(d: Dialect, p: Payload): string {
    if !Decodes(d, p) then ""
    else if d.OpenAI? then
      ChoiceArgs(p.choices) +
      (if p.typ == "response.function_call_arguments.delta" && p.delta.StringDelta? then p.delta.s else "")
    else if p.typ == "content_block_delta" && p.delta.ObjectDelta? then p.delta.partialJson
    else ""
  }

  // ---------- token usage ----------

  function OrZero(n: Option<int>): int {
    if n.Some? then n.value else 0
  }

  function Normalized(u: Usage): Usage {
    if u.total == 0 then u.(total := u.prompt + u.completion) else u
  }

  function ToUsage(r: RawUsage): Usage {
    if r.promptTokens.Some? || r.completionTokens.Some? then
      Normalized(Usage(OrZero(r.promptTokens), OrZero(r.completionTokens), OrZero(r.totalTokens), OrZero(r.promptCached), 0))
    else if r.inputTokens.Some? || r.outputTokens.Some? then
      var cached := if r.cacheRead.Some? then r.cacheRead.value else OrZero(r.inputCached);
      Normalized(Usage(OrZero(r.inputTokens), OrZero(r.outputTokens), OrZero(r.totalTokens), cached, OrZero(r.cacheCreation)))
    else Usage(0, 0, 0, 0, 0)
  }

  /** The usage known after a payload: the latest reported, or, for messages, what start and end report of it. */
  function UsageAfter(d: Dialect, u: Usage, p: Payload): Usage {
    if !Decodes(d, p) then u
    else if d.OpenAI? then
      if p.usage.Some? then ToUsage(p.usage.value)
      else if p.responseUsage.Some? then ToUsage(p.responseUsage.value) else u
    else if p.typ == "message_start" && p.messageUsage.Some? then
      var reported := ToUsage(p.messageUsage.value);
      u.(prompt := reported.prompt, cached := reported.cached, cacheWrite := reported.cacheWrite)
    else if p.typ == "message_delta" && p.usage.Some? then
      var reported := ToUsage(p.usage.value);
      u.(completion := reported.completion, total := u.prompt + reported.completion)
    else u
  }

  predicate ReportsUsage(d: Dialect, p: Payload) {
    Decodes(d, p) &&
    if d.OpenAI? then p.usage.Some? || p.responseUsage.Some?
    else (p.typ == "message_start" && p.messageUsage.Some?) || (p.typ == "message_delta" && p.usage.Some?)
  }

  /** The finish reason in chat terms. */
  function UpstreamFinish(r: string): string {
    if r in {"max_tokens", "length"} then "length"
    else if r in {"tool_use", "tool_calls", "function_call"} then "tool_calls"
    else if r in {"stop_sequence", "end_turn", ""} then "stop"
    else r
  }

  class StreamParser {
    const dialect: Dialect
    var text: string
    var args: string
    var finish: string
    var usage: Usage
    var hasUsage: bool

    constructor (d: Dialect)
      ensures dialect == d && text == "" && args == "" && finish == "" && usage == Usage(0, 0, 0, 0, 0) && !hasUsage
    {
      dialect := d;
      text, args, finish, usage, hasUsage := "", "", "", Usage(0, 0, 0, 0, 0), false;
    }

    method Feed(p: Payload)
      modifies this
      ensures text == old(text) + TextOf(dialect, p)
      ensures args == old(args) + ArgsOf(dialect, p)
      ensures finish == FinishAfter(dialect, old(finish), p)
      ensures usage == UsageAfter(dialect, old(usage), p)
      ensures hasUsage <==> old(hasUsage) || ReportsUsage(dialect, p)
    {
      if p.Garbage? {
        return;
      }
      match dialect
      case OpenAI =>
        if !p.delta.ObjectDelta? {
          FeedChunk(p);
        }
      case Anthropic =>
        if !p.delta.StringDelta? {
          FeedEvent(p);
        }
    }

    method FeedChunk(p: Payload)
      requires Decodes(OpenAI, p) && dialect == OpenAI
      modifies this
      ensures text == old(text) + TextOf(OpenAI, p)
      ensures args == old(args) + ArgsOf(OpenAI, p)
      ensures finish == FinishAfter(OpenAI, old(finish), p)
      ensures usage == UsageAfter(OpenAI, old(usage), p)
      ensures hasUsage <==> old(hasUsage) || ReportsUsage(OpenAI, p)
    {
      hide ToUsage, ContentOf, ChoiceArgs, LastFinish;
      FeedChoices(p.choices);
      if p.typ == "response.output_text.delta" && p.delta.StringDelta? {
        text := text + p.delta.s;
      }
      if p.typ == "response.function_call_arguments.delta" && p.delta.StringDelta? {
        args := args + p.delta.s;
      }
      if p.responseUsage.Some? {
        usage := ToUsage(p.responseUsage.value);
        hasUsage := true;
      }
      if p.usage.Some? {
        usage := ToUsage(p.usage.value);
        hasUsage := true;
      }
    }

    method FeedCalls(tcs: seq<ToolCallDelta>)
      modifies this`args
      ensures args == old(args) + CallArgs(tcs)
    {
      for j := 0 to |tcs|
        invariant args == old(args) + CallArgs(tcs[..j])
      {
        assert tcs[..j + 1][..j] == tcs[..j];
        args := args + tcs[j].arguments;
      }
      assert tcs[..|tcs|] == tcs;
    }

    method FeedChoices(choices: seq<Choice>)
      modifies this`text, this`args, this`finish
      ensures text == old(text) + ContentOf(choices)
      ensures args == old(args) + ChoiceArgs(choices)
      ensures finish == LastFinish(old(finish), choices)
    {
      hide CallArgs;
      for i := 0 to |choices|
        invariant text == old(text) + ContentOf(choices[..i])
        invariant args == old(args) + ChoiceArgs(choices[..i])
        invariant finish == LastFinish(old(finish), choices[..i])
      {
        assert choices[..i + 1][..i] == choices[..i];
        text := text + choices[i].content;
        FeedCalls(choices[i].toolCalls);
        if choices[i].finishReason != "" {
          finish := choices[i].finishReason;
        }
      }
      assert choices[..|choices|] == choices;
    }

    method FeedEvent(p: Payload)
      requires Decodes(Anthropic, p) && dialect == Anthropic
      modifies this
      ensures text == old(text) + TextOf(Anthropic, p)
      ensures args == old(args) + ArgsOf(Anthropic, p)
      ensures finish == FinishAfter(Anthropic, old(finish), p)
      ensures usage == UsageAfter(Anthropic, old(usage), p)
      ensures hasUsage <==> old(hasUsage) || ReportsUsage(Anthropic, p)
    {
      hide ToUsage;
      if p.typ == "content_block_delta" {
        if p.delta.ObjectDelta? {
          text := text + p.delta.text;
          args := args + p.delta.partialJson;
        }
      } else if p.typ == "message_start" {
        if p.messageUsage.Some? {
          var u := ToUsage(p.messageUsage.value);
          usage := usage.(prompt := u.prompt, cached := u.cached, cacheWrite := u.cacheWrite);
          hasUsage := true;
        }
      } else if p.typ == "message_delta" {
        if p.delta.ObjectDelta? && p.delta.stopReason != "" {
          finish := p.delta.stopReason;
        }
        if p.usage.Some? {
          var u := ToUsage(p.usage.value);
          usage := usage.(completion := u.completion);
          usage := usage.(total := usage.prompt + u.completion);
          hasUsage := true;
        }
      }
    }
  }

  // ---------- tool-call events ----------

  function IntKey(i: Option<int>): string {
    if i.None? then "0" else FormatInt(i.value)
  }

  function CallEvents(tc: ToolCallDelta): seq<ToolEvent> {
    (if tc.id != "" || tc.name != "" then [Start(IntKey(tc.index), tc.id, tc.name)] else []) +
    (if tc.arguments != "" then [Args(IntKey(tc.index), tc.arguments)] else [])
  }

  function CallsEvents(tcs: seq<ToolCallDelta>): seq<ToolEvent> {
    if tcs == [] then [] else CallsEvents(tcs[..|tcs| - 1]) + CallEvents(tcs[|tcs| - 1])
  }

  function ChoicesEvents(choices: seq<Choice>): seq<ToolEvent> {
    if choices == [] then []
    else ChoicesEvents(choices[..|choices| - 1]) + CallsEvents(choices[|choices| - 1].toolCalls)
  }

  function TypedEvents(p: Payload): seq<ToolEvent>
    requires p.Chunk?
  {
    match p.typ
    case "content_block_start" =>
      if p.block.Some? && p.block.value.typ == "tool_use"
      then [Start(IntKey(p.index), p.block.value.id, p.block.value.name)] else []
    case "content_block_delta" =>
      if p.delta.ObjectDelta? && p.delta.typ == "input_json_delta" && p.delta.partialJson != ""
      then [Args(IntKey(p.index), p.delta.partialJson)] else []
    case "response.output_item.added" =>
      if p.item.Some? && p.item.value.typ == "function_call"
      then [Start(p.item.value.id, p.item.value.callId, p.item.value.name)] else []
    case "response.function_call_arguments.delta" =>
      if p.itemId != "" && p.delta.StringDelta? && p.delta.s != ""
      then [Args(p.itemId, p.delta.s)] else []
    case _ => []
  }

  /** The tool events of one payload, whichever protocol it speaks. */
  function ToolEvents(p: Payload): seq<ToolEvent> {
    if p.Garbage? then [] else ChoicesEvents(p.choices) + TypedEvents(p)
  }

  method ExtractCallEvents(tcs: seq<ToolCallDelta>) returns (evs: seq<ToolEvent>)
    ensures evs == CallsEvents(tcs)
  {
    evs := [];
    for j := 0 to |tcs|
      invariant evs == CallsEvents(tcs[..j])
    {
      assert tcs[..j + 1][..j] == tcs[..j];
      var tc := tcs[j];
      if tc.id != "" || tc.name != "" {
        evs := evs + [Start(IntKey(tc.index), tc.id, tc.name)];
      }
      if tc.arguments != "" {
        evs := evs + [Args(IntKey(tc.index), tc.arguments)];
      }
    }
    assert tcs[..|tcs|] == tcs;
  }

  method ExtractTypedEvents(p: Payload) returns (evs: seq<ToolEvent>)
    requires p.Chunk?
    ensures evs == TypedEvents(p)
  {
    evs := [];
    if p.typ == "content_block_start" {
      if p.block.Some? && p.block.value.typ == "tool_use" {
        evs := evs + [Start(IntKey(p.index), p.block.value.id, p.block.value.name)];
      }
    } else if p.typ == "content_block_delta" {
      if p.delta.ObjectDelta? && p.delta.typ == "input_json_delta" && p.delta.partialJson != "" {
        evs := evs + [Args(IntKey(p.index), p.delta.partialJson)];
      }
    } else if p.typ == "response.output_item.added" {
      if p.item.Some? && p.item.value.typ == "function_call" {
        evs := evs + [Start(p.item.value.id, p.item.value.callId, p.item.value.name)];
      }
    } else if p.typ == "response.function_call_arguments.delta" {
      if p.itemId != "" && p.delta.StringDelta? && p.delta.s != "" {
        evs := evs + [Args(p.itemId, p.delta.s)];
      }
    }
  }

  method ExtractToolEvents(p: Payload) returns (evs: seq<ToolEvent>)
    ensures evs == ToolEvents(p)
  {
    if p.Garbage? {
      return [];
    }
    evs := [];
    for i := 0 to |p.choices|
      invariant evs == ChoicesEvents(p.choices[..i])
    {
      assert p.choices[..i + 1][..i] == p.choices[..i];
      var more := ExtractCallEvents(p.choices[i].toolCalls);
      evs := evs + more;
    }
    assert p.choices[..|p.choices|] == p.choices;
    var typed := ExtractTypedEvents(p);
    evs := evs + typed;
  }

  lemma FragmentsAreNonEmpty(p: Payload)
    ensures forall e :: e in ToolEvents(p) && e.Args? ==> e.args != ""
  {
    if p.Chunk? {
      ChoiceFragmentsAreNonEmpty(p.choices);
    }
  }

  lemma ChoiceFragmentsAreNonEmpty(choices: seq<Choice>)
    ensures forall e :: e in ChoicesEvents(choices) && e.Args? ==> e.args != ""
  {
    if choices != [] {
      CallFragmentsAreNonEmpty(choices[|choices| - 1].toolCalls);
    }
  }

  lemma CallFragmentsAreNonEmpty(tcs: seq<ToolCallDelta>)
    ensures forall e :: e in CallsEvents(tcs) && e.Args? ==> e.args != ""
  {
  }
}
