/** The converter that answers an Anthropic messages client from a chat or responses upstream. */
module MessagesStream {
  import opened Common
  import opened Upstream
  import opened Meaning

  datatype BlockHead = TextBlock | ToolUse(id: string, name: string)

  datatype Event =
    | MessageStart
    | BlockStart(index: int, head: BlockHead)
    | TextDelta(index: int, text: string)
    | InputDelta(index: int, partialJson: string)
    | BlockStop(index: int)
    | MessageDelta(stopReason: string)
    | MessageStop

  datatype State = State(text: string, finish: string, emitted: nat, started: bool, textOpen: bool,
                         openTool: int, nextBlock: nat, toolBlocks: map<string, nat>, anyTool: bool)

  datatype Result = Result(state: State, out: seq<Event>)

  const INITIAL := State("", "", 0, false, false, 0, 0, map[], false)

  function MapStop(reason: string): string {
    if reason in {"length", "max_tokens"} then "max_tokens"
    else if reason in {"tool_calls", "tool_use", "function_call"} then "tool_use"
    else "end_turn"
  }

  function StopReason(finish: string, anyTool: bool): string {
    var stop := MapStop(UpstreamFinish(finish));
    if anyTool && stop != "max_tokens" then "tool_use" else stop
  }

  function AfterStart(s: State): Result {
    if s.started then Result(s, [])
    else Result(s.(started := true, textOpen := true, openTool := -1, nextBlock := 1),
                [MessageStart, BlockStart(0, TextBlock)])
  }

  function AfterTool(s: State, e: ToolEvent): Result {
    match e
    case Start(key, id, name) =>
      if key in s.toolBlocks then Result(s, [])
      else
        var b := s.nextBlock;
        Result(s.(textOpen := false, openTool := b, nextBlock := b + 1, toolBlocks := s.toolBlocks[key := b], anyTool := true),
               (if s.textOpen then [BlockStop(0)] else []) +
               (if s.openTool >= 0 then [BlockStop(s.openTool)] else []) +
               [BlockStart(b, ToolUse(if id == "" then "toolu_" + FormatNat(b) else id, name))])
    case Args(key, args) =>
      Result(s, if key in s.toolBlocks then [InputDelta(s.toolBlocks[key], args)] else [])
  }

  function AfterTools(s: State, evs: seq<ToolEvent>): Result {
    if evs == [] then Result(s, [])
    else
      var r := AfterTools(s, evs[..|evs| - 1]);
      var r' := AfterTool(r.state, evs[|evs| - 1]);
      Result(r'.state, r.out + r'.out)
  }

  /** Text that arrives once a tool block was opened is consumed but not sent. */
  function AfterDrain(s: State): Result {
    var suffix := Suffix(s.text, s.emitted);
    Result(s.(emitted := if suffix == "" then s.emitted else |s.text|),
           if suffix != "" && !s.anyTool then [TextDelta(0, suffix)] else [])
  }

  function AfterFeed(d: Dialect, s: State, p: Payload): Result {
    var r0 := AfterStart(s.(text := s.text + TextOf(d, p), finish := FinishAfter(d, s.finish, p)));
    var r1 := AfterTools(r0.state, ToolEvents(p));
    var r2 := AfterDrain(r1.state);
    Result(r2.state, r0.out + r1.out + r2.out)
  }

  function AfterFinalize(s: State): Result {
    var r := AfterDrain(s);
    var closing := [MessageDelta(StopReason(s.finish, s.anyTool)), MessageStop];
    if s.openTool >= 0 then Result(r.state.(openTool := -1), r.out + [BlockStop(s.openTool)] + closing)
    else if s.textOpen || !s.anyTool then Result(r.state.(textOpen := false), r.out + [BlockStop(0)] + closing)
    else Result(r.state, r.out + closing)
  }

  class AnthropicEventConverter {
    const parser: StreamParser
    var emitted: nat
    var started: bool
    var textOpen: bool
    var openTool: int
    var nextBlock: nat
    var toolBlocks: map<string, nat>
    var anyTool: bool

    ghost function Contents(): State
      reads this, parser
    {
      State(parser.text, parser.finish, emitted, started, textOpen, openTool, nextBlock, toolBlocks, anyTool)
    }

    constructor (up: Dialect)
      ensures Contents() == INITIAL && parser.dialect == up && fresh(parser)
    {
      parser := new StreamParser(up);
      emitted, started, textOpen, openTool, nextBlock, toolBlocks, anyTool := 0, false, false, 0, 0, map[], false;
    }

    method Pending() returns (suffix: string)
      modifies this`emitted
      ensures suffix == Suffix(parser.text, old(emitted))
      ensures emitted == if suffix == "" then old(emitted) else |parser.text|
    {
      var full := parser.text;
      if |full| <= emitted {
        return "";
      }
      suffix := full[emitted..];
      emitted := |full|;
    }

    method FeedTool(ev: ToolEvent) returns (out: seq<Event>)
      modifies this
      ensures Result(Contents(), out) == AfterTool(old(Contents()), ev)
    {
      out := [];
      match ev
      case Start(key, evId, name) =>
        if key in toolBlocks {
          return;
        }
        if textOpen {
          textOpen := false;
          out := out + [BlockStop(0)];
        }
        if openTool >= 0 {
          out := out + [BlockStop(openTool)];
        }
        var b := nextBlock;
        nextBlock := nextBlock + 1;
        toolBlocks := toolBlocks[key := b];
        openTool := b;
        anyTool := true;
        var id := evId;
        if id == "" {
          id := "toolu_" + FormatNat(b);
        }
        out := out + [BlockStart(b, ToolUse(id, name))];
      case Args(key, args) =>
        if key in toolBlocks {
          out := out + [InputDelta(toolBlocks[key], args)];
        }
    }

    method FeedTools(evs: seq<ToolEvent>) returns (out: seq<Event>)
      modifies this
      ensures Result(Contents(), out) == AfterTools(old(Contents()), evs)
    {
      out := [];
      for i := 0 to |evs|
        invariant Result(Contents(), out) == AfterTools(old(Contents()), evs[..i])
      {
        assert evs[..i + 1][..i] == evs[..i];
        var more := FeedTool(evs[i]);
        out := out + more;
      }
      assert evs[..|evs|] == evs;
    }

    /** Text after a tool block was opened is not sent. */
    method FeedText() returns (out: seq<Event>)
      modifies this`emitted
      ensures Result(Contents(), out) == AfterDrain(old(Contents()))
    {
      out := [];
      var suffix := Pending();
      if suffix != "" && !anyTool {
        out := [TextDelta(0, suffix)];
      }
    }

    method Feed(data: Payload) returns (out: seq<Event>)
      modifies this, parser
      ensures Contents() == AfterFeed(parser.dialect, old(Contents()), data).state
      ensures out == AfterFeed(parser.dialect, old(Contents()), data).out
    {
      parser.Feed(data);
      out := [];
      ghost var s0 := Contents();
      if !started {
        started := true;
        out := out + [MessageStart];
        out := out + [BlockStart(0, TextBlock)];
        textOpen := true;
        openTool := -1;
        nextBlock := 1;
      }
      assert Result(Contents(), out) == AfterStart(s0);
      var evs := ExtractToolEvents(data);
      var tools := FeedTools(evs);
      var text := FeedText();
      out := out + tools + text;
    }

    method Finalize() returns (out: seq<Event>)
      modifies this
      ensures Contents() == AfterFinalize(old(Contents())).state
      ensures out == AfterFinalize(old(Contents())).out
    {
      hide AfterDrain, MapStop, UpstreamFinish;
      out := FeedText();
      if openTool >= 0 {
        out := out + [BlockStop(openTool)];
        openTool := -1;
      } else if textOpen || !anyTool {
        out := out + [BlockStop(0)];
        textOpen := false;
      }
      var stop := MapStop(UpstreamFinish(parser.finish));
      if anyTool && stop != "max_tokens" {
        stop := "tool_use";
      }
      out := out + [MessageDelta(stop)];
      out := out + [MessageStop];
    }
  }

  // ---------- a client of the messages protocol ----------

  datatype BlockSoFar = Text(text: string) | Tool(call: Call)

  /** `open` says whether the last block is still open; earlier blocks never are. */
  datatype MessagesClient =
    | Rejected
    | Fresh
    | Streaming(blocks: seq<BlockSoFar>, open: bool)
    | Ended(blocks: seq<BlockSoFar>, stopReason: string)
    | Closed(blocks: seq<BlockSoFar>, stopReason: string)

  /** A strict client accepts deltas for the open block only; a lenient one also takes argument deltas
      for a tool block that was closed already. Both insist on one open block at a time, on block
      indexes 0, 1, 2, ... and on the order of the envelope events. */
  function Read(strict: bool, c: MessagesClient, e: Event): MessagesClient {
    match (c, e)
    case (Fresh, MessageStart) => Streaming([], false)
    case (Streaming(blocks, open), BlockStart(i, head)) =>
      if open || i != |blocks| then Rejected
      else
        var block := if head.TextBlock? then Text("") else Tool(Call(head.id, head.name, ""));
        Streaming(blocks + [block], true)
    case (Streaming(blocks, open), TextDelta(i, text)) =>
      if open && i == |blocks| - 1 && i >= 0 && blocks[i].Text? && text != ""
      then Streaming(blocks[i := Text(blocks[i].text + text)], open)
      else Rejected
    case (Streaming(blocks, open), InputDelta(i, json)) =>
      if (strict ==> open && i == |blocks| - 1) && 0 <= i < |blocks| && blocks[i].Tool? && json != ""
      then Streaming(blocks[i := Tool(blocks[i].call.(args := blocks[i].call.args + json))], open)
      else Rejected
    case (Streaming(blocks, open), BlockStop(i)) =>
      if open && i == |blocks| - 1 then Streaming(blocks, false) else Rejected
    case (Streaming(blocks, open), MessageDelta(stop)) =>
      if !open && blocks != [] then Ended(blocks, stop) else Rejected
    case (Ended(blocks, stop), MessageStop) => Closed(blocks, stop)
    case _ => Rejected
  }

  function ReadAll(strict: bool, c: MessagesClient, es: seq<Event>): MessagesClient {
    if es == [] then c else Read(strict, ReadAll(strict, c, es[..|es| - 1]), es[|es| - 1])
  }

  lemma {:induction false} ReadConcat(strict: bool, c: MessagesClient, a: seq<Event>, b: seq<Event>)
    ensures ReadAll(strict, c, a + b) == ReadAll(strict, ReadAll(strict, c, a), b)
  {
    if b == [] {
      assert a + b == a;
    } else {
      assert (a + b)[..|a + b| - 1] == a + b[..|b| - 1];
      ReadConcat(strict, c, a, b[..|b| - 1]);
    }
  }

  lemma ReadOne(strict: bool, c: MessagesClient, e: Event)
    ensures ReadAll(strict, c, [e]) == Read(strict, c, e)
  {
  }

  lemma ReadTwo(strict: bool, c: MessagesClient, e: Event, f: Event)
    ensures ReadAll(strict, c, [e, f]) == Read(strict, Read(strict, c, e), f)
  {
    assert [e, f] == [e] + [f];
    ReadConcat(strict, c, [e], [f]);
    ReadOne(strict, c, e);
    ReadOne(strict, Read(strict, c, e), f);
  }

  // ---------- whole runs ----------

  function Fed(d: Dialect, ps: seq<Payload>): Result {
    if ps == [] then Result(INITIAL, [])
    else
      var r := Fed(d, ps[..|ps| - 1]);
      var r' := AfterFeed(d, r.state, ps[|ps| - 1]);
      Result(r'.state, r.out + r'.out)
  }

  /** Everything written to the client for upstream payloads `ps`. */
  function Stream(d: Dialect, ps: seq<Payload>): seq<Event> {
    Fed(d, ps).out + AfterFinalize(Fed(d, ps).state).out
  }

  /** The content blocks a client should end up with: the text block, then one block per call. */
  function Blocks(text: string, calls: seq<Call>): (blocks: seq<BlockSoFar>)
    ensures |blocks| == |calls| + 1 && blocks[0] == Text(text)
    ensures forall i :: 0 <= i < |calls| ==> blocks[i + 1] == Tool(calls[i])
  {
    [Text(text)] + seq(|calls|, i requires 0 <= i < |calls| => Tool(calls[i]))
  }

  lemma BlocksGrow(text: string, calls: seq<Call>, more: Call)
    ensures Blocks(text, calls + [more]) == Blocks(text, calls) + [Tool(more)]
  {
  }

  lemma BlocksExtend(text: string, calls: seq<Call>, at: nat, more: string)
    requires at < |calls|
    ensures Blocks(text, Extend(calls, at, more)) ==
            Blocks(text, calls)[at + 1 := Tool(calls[at].(args := calls[at].args + more))]
  {
  }

  predicate StateInv(s: State, starts: seq<Announcement>) {
    && s.started
    && Tracks(s.toolBlocks, starts, 1)
    && s.nextBlock == |starts| + 1
    && (s.anyTool <==> starts != [])
    && (s.textOpen <==> starts == [])
    && s.openTool == (if starts == [] then -1 else |starts|)
  }

  function Shown(strict: bool, evs: seq<ToolEvent>, text: string): MessagesClient {
    if strict && !NoInterleaving(evs) then Rejected else Streaming(Blocks(text, CallsOf(Messages, evs)), true)
  }

  lemma {:induction false} RejectedStays(strict: bool, es: seq<Event>)
    ensures ReadAll(strict, Rejected, es) == Rejected
  {
    if es != [] {
      RejectedStays(strict, es[..|es| - 1]);
    }
  }

  lemma ClientOpensCall(strict: bool, text: string, calls: seq<Call>, call: Call)
    requires call.args == ""
    ensures ReadAll(strict, Streaming(Blocks(text, calls), true),
                    [BlockStop(|calls|), BlockStart(|calls| + 1, ToolUse(call.id, call.name))]) ==
            Streaming(Blocks(text, calls + [call]), true)
  {
    ReadTwo(strict, Streaming(Blocks(text, calls), true), BlockStop(|calls|), BlockStart(|calls| + 1, ToolUse(call.id, call.name)));
    BlocksGrow(text, calls, call);
  }

  lemma ClientExtendsCall(strict: bool, text: string, calls: seq<Call>, at: nat, args: string)
    requires at < |calls| && args != ""
    ensures ReadAll(strict, Streaming(Blocks(text, calls), true), [InputDelta(at + 1, args)]) ==
            if strict && at != |calls| - 1 then Rejected else Streaming(Blocks(text, Extend(calls, at, args)), true)
  {
    ReadOne(strict, Streaming(Blocks(text, calls), true), InputDelta(at + 1, args));
    BlocksExtend(text, calls, at, args);
  }

  lemma ClientExtendsText(strict: bool, text: string, more: string)
    requires more != ""
    ensures ReadAll(strict, Streaming(Blocks(text, []), true), [TextDelta(0, more)]) ==
            Streaming(Blocks(text + more, []), true)
  {
    ReadOne(strict, Streaming(Blocks(text, []), true), TextDelta(0, more));
  }

  lemma StartKeepsState(s: State, starts: seq<Announcement>, e: ToolEvent)
    requires StateInv(s, starts) && e.Start? && e.key !in s.toolBlocks
    ensures StateInv(AfterTool(s, e).state, starts + [Announcement(e.key, e.id, e.name)])
    ensures AfterTool(s, e).out ==
            [BlockStop(|starts|), BlockStart(|starts| + 1, ToolUse(CallId(Messages, |starts|, e.id), e.name))]
  {
    hide Tracks, FormatNat;
    TracksGrows(s.toolBlocks, starts, 1, Announcement(e.key, e.id, e.name));
  }

  lemma StartKeepsInv(strict: bool, s: State, evs: seq<ToolEvent>, text: string, e: ToolEvent)
    requires StateInv(s, Announced(evs)) && e.Start? && e.key !in s.toolBlocks
    ensures StateInv(AfterTool(s, e).state, Announced(evs + [e]))
    ensures ReadAll(strict, Shown(strict, evs, text), AfterTool(s, e).out) == Shown(strict, evs + [e], text)
  {
    TracksDecides(s.toolBlocks, Announced(evs), 1, e.key);
    CallsAfterStart(Messages, evs, e);
    InterleavingAfter(evs, e);
    StartKeepsState(s, Announced(evs), e);
    if strict && !NoInterleaving(evs) {
      RejectedStays(strict, AfterTool(s, e).out);
    } else {
      ClientOpensCall(strict, text, CallsOf(Messages, evs), Call(CallId(Messages, |CallsOf(Messages, evs)|, e.id), e.name, ""));
    }
  }

  lemma ArgsKeepState(s: State, starts: seq<Announcement>, e: ToolEvent) returns (at: nat)
    requires StateInv(s, starts) && e.Args? && e.key in s.toolBlocks
    ensures at < |starts| && starts[at].key == e.key
    ensures AfterTool(s, e) == Result(s, [InputDelta(at + 1, e.args)])
  {
    at := s.toolBlocks[e.key] - 1;
  }

  lemma ArgsKeepInv(strict: bool, s: State, evs: seq<ToolEvent>, text: string, e: ToolEvent)
    requires StateInv(s, Announced(evs)) && e.Args? && e.args != "" && e.key in s.toolBlocks
    ensures StateInv(AfterTool(s, e).state, Announced(evs + [e]))
    ensures ReadAll(strict, Shown(strict, evs, text), AfterTool(s, e).out) == Shown(strict, evs + [e], text)
  {
    var at := ArgsKeepState(s, Announced(evs), e);
    CallsAfterArgs(Messages, evs, e, at);
    LatestOnly(evs, e, at);
    FragmentShown(strict, evs, text, e, at);
  }

  lemma FragmentShown(strict: bool, evs: seq<ToolEvent>, text: string, e: ToolEvent, at: nat)
    requires e.Args? && e.args != "" && at < |CallsOf(Messages, evs)|
    requires CallsOf(Messages, evs + [e]) == Extend(CallsOf(Messages, evs), at, e.args)
    requires NoInterleaving(evs + [e]) <==> NoInterleaving(evs) && at == |CallsOf(Messages, evs)| - 1
    ensures ReadAll(strict, Shown(strict, evs, text), [InputDelta(at + 1, e.args)]) == Shown(strict, evs + [e], text)
  {
    if strict && !NoInterleaving(evs) {
      RejectedStays(strict, [InputDelta(at + 1, e.args)]);
    } else {
      ClientExtendsCall(strict, text, CallsOf(Messages, evs), at, e.args);
    }
  }

  lemma LatestOnly(evs: seq<ToolEvent>, e: ToolEvent, at: nat)
    requires e.Args? && at < |Announced(evs)| && Announced(evs)[at].key == e.key
    ensures NoInterleaving(evs + [e]) <==> NoInterleaving(evs) && at == |Announced(evs)| - 1
  {
    InterleavingAfter(evs, e);
  }

  lemma ToolKeepsInv(strict: bool, s: State, evs: seq<ToolEvent>, text: string, e: ToolEvent)
    requires StateInv(s, Announced(evs))
    requires e.Args? ==> e.args != ""
    ensures var r := AfterTool(s, e);
            && StateInv(r.state, Announced(evs + [e]))
            && ReadAll(strict, Shown(strict, evs, text), r.out) == Shown(strict, evs + [e], text)
            && r.state.text == s.text && r.state.finish == s.finish && r.state.emitted == s.emitted
  {
    TracksDecides(s.toolBlocks, Announced(evs), 1, e.key);
    if e.Start? && e.key !in s.toolBlocks {
      StartKeepsInv(strict, s, evs, text, e);
    } else if e.Args? && e.key in s.toolBlocks {
      ArgsKeepInv(strict, s, evs, text, e);
    } else {
      CallsAfterNothing(Messages, evs, e);
      InterleavingAfter(evs, e);
    }
  }

  lemma {:induction false} ToolsKeepInv(strict: bool, s: State, evs: seq<ToolEvent>, text: string, more: seq<ToolEvent>)
    requires StateInv(s, Announced(evs))
    requires forall e :: e in more && e.Args? ==> e.args != ""
    ensures var r := AfterTools(s, more);
            && StateInv(r.state, Announced(evs + more))
            && ReadAll(strict, Shown(strict, evs, text), r.out) == Shown(strict, evs + more, text)
            && r.state.text == s.text && r.state.finish == s.finish && r.state.emitted == s.emitted
  {
    if more == [] {
      assert evs + more == evs;
    } else {
      var init, e := more[..|more| - 1], more[|more| - 1];
      ToolsKeepInv(strict, s, evs, text, init);
      var r := AfterTools(s, init);
      assert evs + init + [e] == evs + more;
      ReadConcat(strict, Shown(strict, evs, text), r.out, AfterTool(r.state, e).out);
      ToolKeepsInv(strict, r.state, evs + init, text, e);
    }
  }

  lemma DrainKeepsInv(strict: bool, s: State, evs: seq<ToolEvent>, text: string, more: string)
    requires StateInv(s, Announced(evs)) && Suffix(s.text, s.emitted) == more
    ensures var r := AfterDrain(s);
            && StateInv(r.state, Announced(evs))
            && r.state.text == s.text && r.state.finish == s.finish
            && ReadAll(strict, Shown(strict, evs, text), r.out) ==
                 Shown(strict, evs, if Announced(evs) == [] then text + more else text)
  {
    assert text + "" == text;
    if strict && !NoInterleaving(evs) {
      RejectedStays(strict, AfterDrain(s).out);
    } else if more != "" && Announced(evs) == [] {
      assert CallsOf(Messages, evs) == [];
      ClientExtendsText(strict, text, more);
    }
  }

  /** Once started, the client has read the blocks so far and nothing is pending. */
  predicate Live(strict: bool, s: State, evs: seq<ToolEvent>, text: string, client: MessagesClient) {
    StateInv(s, Announced(evs)) && client == Shown(strict, evs, text) && s.emitted == |s.text|
  }

  predicate Unstarted(s: State, evs: seq<ToolEvent>, text: string, client: MessagesClient) {
    s == INITIAL && evs == [] && text == "" && client == Fresh
  }

  lemma FeedKeepsInv(strict: bool, d: Dialect, s: State, evs: seq<ToolEvent>, text: string, client: MessagesClient, p: Payload)
    requires Live(strict, s, evs, text, client) || Unstarted(s, evs, text, client)
    ensures var r := AfterFeed(d, s, p);
            var evs' := evs + ToolEvents(p);
            var text' := if Announced(evs') == [] then text + TextOf(d, p) else text;
            && Live(strict, r.state, evs', text', ReadAll(strict, client, r.out))
            && r.state.text == s.text + TextOf(d, p) && r.state.finish == FinishAfter(d, s.finish, p)
  {
    FragmentsAreNonEmpty(p);
    var s0 := s.(text := s.text + TextOf(d, p), finish := FinishAfter(d, s.finish, p));
    var r0 := AfterStart(s0);
    BeginKeepsInv(strict, s, s0, evs, text, client);
    ToolsKeepInv(strict, r0.state, evs, text, ToolEvents(p));
    var r1 := AfterTools(r0.state, ToolEvents(p));
    SuffixIsTheAddition(s.text, TextOf(d, p));
    DrainKeepsInv(strict, r1.state, evs + ToolEvents(p), text, TextOf(d, p));
    ReadConcat(strict, client, r0.out, r1.out);
    ReadConcat(strict, client, r0.out + r1.out, AfterDrain(r1.state).out);
  }

  lemma BeginKeepsInv(strict: bool, s: State, s0: State, evs: seq<ToolEvent>, text: string, client: MessagesClient)
    requires Live(strict, s, evs, text, client) || Unstarted(s, evs, text, client)
    requires s0 == s.(text := s0.text, finish := s0.finish)
    ensures var r := AfterStart(s0);
            && StateInv(r.state, Announced(evs))
            && r.state.text == s0.text && r.state.finish == s0.finish && r.state.emitted == |s.text|
            && ReadAll(strict, client, r.out) == Shown(strict, evs, text)
  {
    if !s0.started {
      ReadTwo(strict, Fresh, MessageStart, BlockStart(0, TextBlock));
      assert CallsOf(Messages, []) == [];
      assert Blocks("", []) == [Text("")];
    }
  }

  lemma TextBeforeCallsAfter(d: Dialect, ps: seq<Payload>)
    requires ps != []
    ensures TextBeforeCalls(d, ps) ==
            if Announced(EventsOf(ps)) == [] then TextBeforeCalls(d, ps[..|ps| - 1]) + TextOf(d, ps[|ps| - 1])
            else TextBeforeCalls(d, ps[..|ps| - 1])
  {
    AnnouncedGrows(EventsOf(ps[..|ps| - 1]), ToolEvents(ps[|ps| - 1]));
    TextBeforeCallsIsPrefix(d, ps[..|ps| - 1]);
  }

  predicate Informed(strict: bool, s: State, evs: seq<ToolEvent>, text: string, client: MessagesClient, started: bool) {
    if started then Live(strict, s, evs, text, client) else Unstarted(s, evs, text, client)
  }

  lemma {:induction false} FeedsParse(d: Dialect, ps: seq<Payload>)
    ensures Fed(d, ps).state.text == Transcript(d, ps) && Fed(d, ps).state.finish == FinishOf(d, ps)
  {
    if ps != [] {
      FeedsParse(d, ps[..|ps| - 1]);
      ToolsKeepText(AfterStart(Fed(d, ps[..|ps| - 1]).state.(text := Transcript(d, ps), finish := FinishOf(d, ps))).state,
                    ToolEvents(ps[|ps| - 1]));
    }
  }

  lemma {:induction false} ToolsKeepText(s: State, evs: seq<ToolEvent>)
    ensures AfterTools(s, evs).state.text == s.text && AfterTools(s, evs).state.finish == s.finish
  {
    if evs != [] {
      ToolsKeepText(s, evs[..|evs| - 1]);
    }
  }

  lemma {:induction false} FeedsInform(strict: bool, d: Dialect, ps: seq<Payload>)
    ensures Informed(strict, Fed(d, ps).state, EventsOf(ps), TextBeforeCalls(d, ps), ReadAll(strict, Fresh, Fed(d, ps).out), ps != [])
  {
    if ps == [] {
      assert Announced([]) == [];
    } else {
      var init, p := ps[..|ps| - 1], ps[|ps| - 1];
      FeedsInform(strict, d, init);
      var r := Fed(d, init);
      FeedKeepsInv(strict, d, r.state, EventsOf(init), TextBeforeCalls(d, init), ReadAll(strict, Fresh, r.out), p);
      ReadConcat(strict, Fresh, r.out, AfterFeed(d, r.state, p).out);
      TextBeforeCallsAfter(d, ps);
    }
  }

  /** For every upstream stream and both kinds of client: at least one feed is needed, a strict client
      also needs fragments not to interleave, and then the client ends with the text sent before the
      first call, one block per call with all its fragments, and the stop reason. */
  lemma StreamConveysTheUpstream(strict: bool, d: Dialect, ps: seq<Payload>)
    ensures ReadAll(strict, Fresh, Stream(d, ps)) ==
            if ps == [] || (strict && !NoInterleaving(EventsOf(ps))) then Rejected
            else Closed(Blocks(TextBeforeCalls(d, ps), CallsOf(Messages, EventsOf(ps))),
                        StopReason(FinishOf(d, ps), Announced(EventsOf(ps)) != []))
  {
    FeedsParse(d, ps);
    FeedsInform(strict, d, ps);
    var r := Fed(d, ps);
    var finale := AfterFinalize(r.state).out;
    ReadConcat(strict, Fresh, r.out, finale);
    var starts := Announced(EventsOf(ps));
    var reason := StopReason(FinishOf(d, ps), starts != []);
    Finale(r.state, starts);
    ReadFinale(strict, ReadAll(strict, Fresh, r.out), |starts|, reason);
  }

  lemma Finale(s: State, starts: seq<Announcement>)
    requires (s == INITIAL && starts == []) || (StateInv(s, starts) && s.emitted == |s.text|)
    ensures AfterFinalize(s).out == [BlockStop(|starts|), MessageDelta(StopReason(s.finish, starts != [])), MessageStop]
  {
  }

  lemma ReadFinale(strict: bool, c: MessagesClient, last: nat, reason: string)
    ensures ReadAll(strict, c, [BlockStop(last), MessageDelta(reason), MessageStop]) ==
            if c.Streaming? && c.open && last == |c.blocks| - 1 then Closed(c.blocks, reason) else Rejected
  {
    assert [BlockStop(last), MessageDelta(reason), MessageStop] == [BlockStop(last)] + [MessageDelta(reason), MessageStop];
    ReadConcat(strict, c, [BlockStop(last)], [MessageDelta(reason), MessageStop]);
    ReadOne(strict, c, BlockStop(last));
    ReadTwo(strict, Read(strict, c, BlockStop(last)), MessageDelta(reason), MessageStop);
  }

  /** A chat chunk that announces two calls and then sends a fragment for the first. */
  const INTERLEAVED_CALLS := [
    ToolCallDelta(Some(0), "a", "f", ""), ToolCallDelta(Some(1), "b", "g", ""), ToolCallDelta(Some(0), "", "", "{}")]
  const INTERLEAVED := Chunk("", None, "", None, None, NoDelta, [Choice("", INTERLEAVED_CALLS, "")], None, None, None)
  const INTERLEAVED_EVENTS := [Start("0", "a", "f"), Start("1", "b", "g"), Args("0", "{}")]

  lemma InterleavedSays()
    ensures EventsOf([INTERLEAVED]) == INTERLEAVED_EVENTS
  {
    var tcs := INTERLEAVED_CALLS;
    assert FormatNat(0) == "0" && FormatNat(1) == "1";
    assert tcs[..2] == [tcs[0], tcs[1]];
    assert [tcs[0], tcs[1]][..1] == [tcs[0]];
    assert CallsEvents([tcs[0]]) == [Start("0", "a", "f")];
    assert CallsEvents([tcs[0], tcs[1]]) == [Start("0", "a", "f"), Start("1", "b", "g")];
    assert CallsEvents(tcs) == INTERLEAVED_EVENTS;
    assert ChoicesEvents(INTERLEAVED.choices) == INTERLEAVED_EVENTS;
    assert ToolEvents(INTERLEAVED) == INTERLEAVED_EVENTS;
  }

  lemma TwoAnnounced(s0: ToolEvent, s1: ToolEvent)
    requires s0.Start? && s1.Start? && s0.key != s1.key
    ensures Announced([s0, s1]) == [Announcement(s0.key, s0.id, s0.name), Announcement(s1.key, s1.id, s1.name)]
  {
    assert Announced([]) == [] && [] + [s0] == [s0] && [s0] + [s1] == [s0, s1];
    CallsAfterStart(Messages, [], s0);
    CallsAfterStart(Messages, [s0], s1);
  }

  lemma InterleavedIsInterleaved()
    ensures !NoInterleaving(INTERLEAVED_EVENTS)
  {
    var s0, s1, a := INTERLEAVED_EVENTS[0], INTERLEAVED_EVENTS[1], INTERLEAVED_EVENTS[2];
    TwoAnnounced(s0, s1);
    assert Announced([s0, s1])[0].key == a.key;
    assert INTERLEAVED_EVENTS == [s0, s1] + [a];
    InterleavingAfter([s0, s1], a);
  }

  /** The hypothesis is needed: here a fragment names a block that was closed already. */
  lemma InterleavedFragmentsNameAClosedBlock()
    ensures ReadAll(true, Fresh, Stream(OpenAI, [INTERLEAVED])).Rejected?
    ensures ReadAll(false, Fresh, Stream(OpenAI, [INTERLEAVED])).Closed?
  {
    InterleavedSays();
    InterleavedIsInterleaved();
    StreamConveysTheUpstream(true, OpenAI, [INTERLEAVED]);
    StreamConveysTheUpstream(false, OpenAI, [INTERLEAVED]);
  }

  /** The streaming loop of the executor: every payload is fed, then the converter is finalized. */
  method Convert(up: Dialect, payloads: seq<Payload>) returns (out: seq<Event>)
    ensures out == Stream(up, payloads)
    ensures payloads != [] && NoInterleaving(EventsOf(payloads)) <==> !ReadAll(true, Fresh, out).Rejected?
    ensures payloads != [] ==>
              ReadAll(false, Fresh, out) ==
              Closed(Blocks(TextBeforeCalls(up, payloads), CallsOf(Messages, EventsOf(payloads))),
                     StopReason(FinishOf(up, payloads), Announced(EventsOf(payloads)) != []))
  {
    var converter := new AnthropicEventConverter(up);
    out := [];
    for i := 0 to |payloads|
      invariant converter.parser.dialect == up && fresh(converter) && fresh(converter.parser)
      invariant Result(converter.Contents(), out) == Fed(up, payloads[..i])
    {
      assert payloads[..i + 1][..i] == payloads[..i];
      var events := converter.Feed(payloads[i]);
      out := out + events;
    }
    assert payloads[..|payloads|] == payloads;
    var done := converter.Finalize();
    out := out + done;
    StreamConveysTheUpstream(true, up, payloads);
    StreamConveysTheUpstream(false, up, payloads);
  }
}
