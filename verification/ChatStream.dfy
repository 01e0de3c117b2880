/** The converter that answers a chat/completions client from a messages or responses upstream. */
module ChatStream {
  import opened Upstream
  import opened Meaning

  /** What a chunk carries beyond the fixed envelope. */
  datatype Chunk =
    | ToolStart(index: nat, id: string, name: string)
    | ToolArgs(index: nat, args: string)
    | Content(text: string)
    | Finish(reason: string)
    | UsageChunk
    | Done

  datatype State = State(text: string, finish: string, emitted: nat, tools: map<string, nat>, toolN: nat, anyTool: bool)

  datatype Result = Result(state: State, out: seq<Chunk>)

  const INITIAL := State("", "", 0, map[], 0, false)

  function AfterTool(s: State, e: ToolEvent): Result {
    match e
    case Start(key, id, name) =>
      if key in s.tools then Result(s, [])
      else
        Result(s.(tools := s.tools[key := s.toolN], toolN := s.toolN + 1, anyTool := true),
               [ToolStart(s.toolN, CallId(Chat, s.toolN, id), name)])
    case Args(key, args) =>
      Result(s, if key in s.tools then [ToolArgs(s.tools[key], args)] else [])
  }

  function AfterTools(s: State, evs: seq<ToolEvent>): Result {
    if evs == [] then Result(s, [])
    else
      var r := AfterTools(s, evs[..|evs| - 1]);
      var r' := AfterTool(r.state, evs[|evs| - 1]);
      Result(r'.state, r.out + r'.out)
  }

  function AfterDrain(s: State): Result {
    var suffix := Suffix(s.text, s.emitted);
    Result(s.(emitted := if suffix == "" then s.emitted else |s.text|), if suffix == "" then [] else [Content(suffix)])
  }

  function AfterFeed(d: Dialect, s: State, p: Payload): Result {
    var s1 := s.(text := s.text + TextOf(d, p), finish := FinishAfter(d, s.finish, p));
    var r := AfterTools(s1, ToolEvents(p));
    var r' := AfterDrain(r.state);
    Result(r'.state, r.out + r'.out)
  }

  function FinishReason(finish: string, anyTool: bool): string {
    var reason := UpstreamFinish(finish);
    if reason == "stop" && anyTool then "tool_calls" else reason
  }

  function AfterFinalize(s: State): Result {
    var r := AfterDrain(s);
    Result(r.state, r.out + [Finish(FinishReason(s.finish, s.anyTool)), UsageChunk, Done])
  }

  class ChatChunkConverter {
    const parser: StreamParser
    var emitted: nat
    var tools: map<string, nat>
    var toolN: nat
    var anyTool: bool

    ghost function Contents(): State
      reads this, parser
    {
      State(parser.text, parser.finish, emitted, tools, toolN, anyTool)
    }

    constructor (up: Dialect)
      ensures Contents() == INITIAL && parser.dialect == up && fresh(parser)
    {
      parser := new StreamParser(up);
      emitted, tools, toolN, anyTool := 0, map[], 0, false;
    }

    method Pending() returns (suffix: string)
      modifies this`emitted
      ensures suffix == Suffix(parser.text, old(emitted))
      ensures emitted == if suffix == "" then old(emitted) else |parser.text|
    {
      var full := parser.text;
      if |full| <= emitted {
        return "";
      }
      suffix := full[emitted..];
      emitted := |full|;
    }

    method FeedTool(ev: ToolEvent) returns (out: seq<Chunk>)
      modifies this
      ensures Result(Contents(), out) == AfterTool(old(Contents()), ev)
    {
      out := [];
      match ev
      case Start(key, evId, name) =>
        if key in tools {
          return;
        }
        var idx := toolN;
        toolN := toolN + 1;
        tools := tools[key := idx];
        anyTool := true;
        var id := evId;
        if id == "" {
          id := "call_" + FormatNat(idx + 1);
        }
        out := [ToolStart(idx, id, name)];
      case Args(key, args) =>
        if key in tools {
          out := [ToolArgs(tools[key], args)];
        }
    }

    method FeedTools(evs: seq<ToolEvent>) returns (out: seq<Chunk>)
      modifies this
      ensures Result(Contents(), out) == AfterTools(old(Contents()), evs)
    {
      out := [];
      for i := 0 to |evs|
        invariant Result(Contents(), out) == AfterTools(old(Contents()), evs[..i])
      {
        assert evs[..i + 1][..i] == evs[..i];
        var more := FeedTool(evs[i]);
        out := out + more;
      }
      assert evs[..|evs|] == evs;
    }

    method Feed(data: Payload) returns (out: seq<Chunk>)
      modifies this, parser
      ensures Contents() == AfterFeed(parser.dialect, old(Contents()), data).state
      ensures out == AfterFeed(parser.dialect, old(Contents()), data).out
    {
      parser.Feed(data);
      var evs := ExtractToolEvents(data);
      out := FeedTools(evs);
      var suffix := Pending();
      if suffix != "" {
        out := out + [Content(suffix)];
      }
    }

    method Finalize() returns (out: seq<Chunk>)
      modifies this
      ensures Contents() == AfterFinalize(old(Contents())).state
      ensures out == AfterFinalize(old(Contents())).out
    {
      out := [];
      var suffix := Pending();
      if suffix != "" {
        out := out + [Content(suffix)];
      }
      var finish := UpstreamFinish(parser.finish);
      if finish == "stop" && anyTool {
        finish := "tool_calls";
      }
      out := out + [Finish(finish)];
      out := out + [UsageChunk];
      out := out + [Done];
    }
  }

  // ---------- a strict client ----------

  /** A client that assembles the answer and rejects anything out of order. */
  datatype ChatClient =
    | Rejected
    | Reading(text: string, calls: seq<Call>)
    | Finished(text: string, calls: seq<Call>, reason: string)
    | Counted(text: string, calls: seq<Call>, reason: string)
    | Closed(text: string, calls: seq<Call>, reason: string)

  function Read(c: ChatClient, chunk: Chunk): ChatClient {
    match (c, chunk)
    case (Reading(text, calls), ToolStart(i, id, name)) =>
      if i == |calls| && id != "" then Reading(text, calls + [Call(id, name, "")]) else Rejected
    case (Reading(text, calls), ToolArgs(i, args)) =>
      if i < |calls| && args != "" then Reading(text, Extend(calls, i, args)) else Rejected
    case (Reading(text, calls), Content(t)) =>
      if t != "" then Reading(text + t, calls) else Rejected
    case (Reading(text, calls), Finish(reason)) => Finished(text, calls, reason)
    case (Finished(text, calls, reason), UsageChunk) => Counted(text, calls, reason)
    case (Counted(text, calls, reason), Done) => Closed(text, calls, reason)
    case _ => Rejected
  }

  function ReadAll(c: ChatClient, chunks: seq<Chunk>): ChatClient {
    if chunks == [] then c else Read(ReadAll(c, chunks[..|chunks| - 1]), chunks[|chunks| - 1])
  }

  lemma {:induction false} ReadConcat(c: ChatClient, a: seq<Chunk>, b: seq<Chunk>)
    ensures ReadAll(c, a + b) == ReadAll(ReadAll(c, a), b)
  {
    if b == [] {
      assert a + b == a;
    } else {
      assert (a + b)[..|a + b| - 1] == a + b[..|b| - 1];
      ReadConcat(c, a, b[..|b| - 1]);
    }
  }

  // ---------- whole runs ----------

  function Fed(d: Dialect, ps: seq<Payload>): Result {
    if ps == [] then Result(INITIAL, [])
    else
      var r := Fed(d, ps[..|ps| - 1]);
      var r' := AfterFeed(d, r.state, ps[|ps| - 1]);
      Result(r'.state, r.out + r'.out)
  }

  /** Everything written to the client for upstream payloads `ps`. */
  function Stream(d: Dialect, ps: seq<Payload>): seq<Chunk> {
    Fed(d, ps).out + AfterFinalize(Fed(d, ps).state).out
  }

  /** The streaming loop of the executor: every payload is fed, then the converter is finalized. */
  method Convert(up: Dialect, payloads: seq<Payload>) returns (out: seq<Chunk>)
    ensures out == Stream(up, payloads)
    ensures ReadAll(Reading("", []), out) ==
            Closed(Transcript(up, payloads), CallsOf(Chat, EventsOf(payloads)),
                   FinishReason(FinishOf(up, payloads), Announced(EventsOf(payloads)) != []))
  {
    var converter := new ChatChunkConverter(up);
    out := [];
    for i := 0 to |payloads|
      invariant converter.parser.dialect == up && fresh(converter) && fresh(converter.parser)
      invariant Result(converter.Contents(), out) == Fed(up, payloads[..i])
    {
      assert payloads[..i + 1][..i] == payloads[..i];
      var chunks := converter.Feed(payloads[i]);
      out := out + chunks;
    }
    assert payloads[..|payloads|] == payloads;
    var done := converter.Finalize();
    out := out + done;
    StreamConveysTheUpstream(up, payloads);
  }

  predicate ToolInv(s: State, evs: seq<ToolEvent>, client: ChatClient, text: string) {
    && Tracks(s.tools, Announced(evs), 0)
    && s.toolN == |Announced(evs)|
    && (s.anyTool <==> Announced(evs) != [])
    && client == Reading(text, CallsOf(Chat, evs))
  }

  lemma ToolStepKeepsInv(s: State, evs: seq<ToolEvent>, client: ChatClient, text: string, e: ToolEvent)
    requires ToolInv(s, evs, client, text)
    requires e.Args? ==> e.args != ""
    ensures ToolInv(AfterTool(s, e).state, evs + [e], ReadAll(client, AfterTool(s, e).out), text)
  {
    TracksDecides(s.tools, Announced(evs), 0, e.key);
    if e.Start? && e.key !in s.tools {
      CallsAfterStart(Chat, evs, e);
    } else if e.Args? && e.key in s.tools {
      CallsAfterArgs(Chat, evs, e, s.tools[e.key]);
    } else {
      CallsAfterNothing(Chat, evs, e);
    }
  }

  lemma {:induction false} ToolsKeepInv(s: State, evs: seq<ToolEvent>, client: ChatClient, text: string, more: seq<ToolEvent>)
    requires ToolInv(s, evs, client, text)
    requires forall e :: e in more && e.Args? ==> e.args != ""
    ensures ToolInv(AfterTools(s, more).state, evs + more, ReadAll(client, AfterTools(s, more).out), text)
    ensures AfterTools(s, more).state.text == s.text && AfterTools(s, more).state.emitted == s.emitted
    ensures AfterTools(s, more).state.finish == s.finish
  {
    if more == [] {
      assert evs + more == evs;
    } else {
      hide ToolInv, AfterTool, ReadAll;
      var init, e := more[..|more| - 1], more[|more| - 1];
      assert evs + init + [e] == evs + more;
      ToolsKeepInv(s, evs, client, text, init);
      var r := AfterTools(s, init);
      ToolStepKeepsInv(r.state, evs + init, ReadAll(client, r.out), text, e);
      ReadConcat(client, r.out, AfterTool(r.state, e).out);
    }
  }

  lemma DrainKeepsInv(s: State, evs: seq<ToolEvent>, text: string, more: string)
    requires ToolInv(s, evs, Reading(text, CallsOf(Chat, evs)), text) && Suffix(s.text, s.emitted) == more
    ensures var r := AfterDrain(s);
            && r.state.text == s.text && r.state.finish == s.finish
            && ToolInv(r.state, evs, ReadAll(Reading(text, CallsOf(Chat, evs)), r.out), text + more)
  {
    var client := Reading(text, CallsOf(Chat, evs));
    if more == "" {
      assert text + "" == text;
    } else {
      ReadOne(client, [Content(more)]);
    }
  }

  lemma FeedKeepsInv(d: Dialect, s: State, evs: seq<ToolEvent>, client: ChatClient, p: Payload)
    requires s.emitted == |s.text| && ToolInv(s, evs, client, s.text)
    ensures var r := AfterFeed(d, s, p);
            && r.state.text == s.text + TextOf(d, p) && r.state.finish == FinishAfter(d, s.finish, p)
            && r.state.emitted == |r.state.text|
            && ToolInv(r.state, evs + ToolEvents(p), ReadAll(client, r.out), r.state.text)
  {
    hide CallsOf, Announced, ToolEvents, TextOf, FinishAfter, Tracks;
    FragmentsAreNonEmpty(p);
    var s1 := s.(text := s.text + TextOf(d, p), finish := FinishAfter(d, s.finish, p));
    ToolsKeepInv(s1, evs, client, s.text, ToolEvents(p));
    var r1 := AfterTools(s1, ToolEvents(p));
    SuffixIsTheAddition(s.text, TextOf(d, p));
    DrainKeepsInv(r1.state, evs + ToolEvents(p), s.text, TextOf(d, p));
    ReadConcat(client, r1.out, AfterDrain(r1.state).out);
  }

  lemma ReadOne(c: ChatClient, chunks: seq<Chunk>)
    requires |chunks| <= 1
    ensures ReadAll(c, chunks) == if chunks == [] then c else Read(c, chunks[0])
  {
  }

  /** Between feeds the client has read exactly the text so far and the calls so far. */
  lemma {:induction false} FeedsInform(d: Dialect, ps: seq<Payload>)
    ensures var s := Fed(d, ps).state;
            && s.text == Transcript(d, ps) && s.finish == FinishOf(d, ps) && s.emitted == |s.text|
            && ToolInv(s, EventsOf(ps), ReadAll(Reading("", []), Fed(d, ps).out), s.text)
  {
    if ps != [] {
      var init, p := ps[..|ps| - 1], ps[|ps| - 1];
      FeedsInform(d, init);
      var r := Fed(d, init);
      FeedKeepsInv(d, r.state, EventsOf(init), ReadAll(Reading("", []), r.out), p);
      ReadConcat(Reading("", []), r.out, AfterFeed(d, r.state, p).out);
    }
  }

  /** For every upstream stream a strict client accepts the whole answer and ends with exactly the
      upstream's text, its calls with all their fragments, and the finish reason; [DONE] comes last. */
  lemma StreamConveysTheUpstream(d: Dialect, ps: seq<Payload>)
    ensures ReadAll(Reading("", []), Stream(d, ps)) ==
            Closed(Transcript(d, ps), CallsOf(Chat, EventsOf(ps)),
                   FinishReason(FinishOf(d, ps), Announced(EventsOf(ps)) != []))
  {
    FeedsInform(d, ps);
    var r := Fed(d, ps);
    var finale := AfterFinalize(r.state).out;
    var reason := FinishReason(FinishOf(d, ps), Announced(EventsOf(ps)) != []);
    assert finale == [Finish(reason), UsageChunk, Done];
    ReadConcat(Reading("", []), r.out, finale);
    ReadFinale(Transcript(d, ps), CallsOf(Chat, EventsOf(ps)), reason);
  }

  lemma ReadFinale(text: string, calls: seq<Call>, reason: string)
    ensures ReadAll(Reading(text, calls), [Finish(reason), UsageChunk, Done]) == Closed(text, calls, reason)
  {
    assert [Finish(reason), UsageChunk, Done][..2] == [Finish(reason), UsageChunk];
    assert [Finish(reason), UsageChunk][..1] == [Finish(reason)];
    ReadOne(Reading(text, calls), [Finish(reason)]);
  }
}
