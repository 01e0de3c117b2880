/** The converter that answers an OpenAI responses client from a chat or messages upstream. */
module ResponsesStream {
  import opened Common
  import opened Upstream
  import opened Meaning

  datatype Status = InProgress | Completed | Incomplete

  /** An output item as the client sees it; a message without an announced text part has no content. */
  datatype OutputItem =
    | MessageItem(status: Status, content: Option<string>)
    | CallItem(itemId: string, callId: string, name: string, args: string, status: Status)

  datatype Body =
    | ResponseCreated
    | ResponseInProgress
    | ItemAdded(index: nat, item: OutputItem)
    | PartAdded(index: nat)
    | TextDelta(index: nat, text: string)
    | ArgsDelta(itemId: string, index: nat, args: string)
    | TextDone(index: nat, text: string)
    | PartDone(index: nat, text: string)
    | ArgsDone(itemId: string, index: nat, args: string)
    | ItemDone(index: nat, item: OutputItem)
    | Terminal(status: Status, output: seq<OutputItem>)

  datatype Event = Event(seqNo: nat, body: Body)

  datatype FunctionCall = FunctionCall(itemId: string, callId: string, name: string, args: string, outIndex: nat)

  /** `callByKey` maps an upstream key to a position in `calls`. */
  datatype State = State(text: string, finish: string, emitted: nat, started: bool, seqNo: nat,
                         partAdded: bool, msgAdded: bool, msgOut: nat, nextOut: nat,
                         calls: seq<FunctionCall>, callByKey: map<string, nat>)

  datatype Result = Result(state: State, out: seq<Event>)

  /** One item's closing events, to be ordered by output index. */
  datatype Closer = Closer(index: nat, evs: seq<Event>)

  const INITIAL := State("", "", 0, false, 0, false, false, 0, 0, [], map[])

  function ItemOf(fc: FunctionCall, status: Status): OutputItem {
    CallItem(fc.itemId, if fc.callId == "" then fc.itemId else fc.callId, fc.name, fc.args, status)
  }

  /** Send one event under the next sequence number. */
  function Emit(s: State, body: Body): Result {
    Result(s.(seqNo := s.seqNo + 1), [Event(s.seqNo, body)])
  }

  function Numbered(seqNo: nat, bodies: seq<Body>): seq<Event> {
    seq(|bodies|, i requires 0 <= i < |bodies| => Event(seqNo + i, bodies[i]))
  }

  function AfterStart(s: State): Result {
    if s.started then Result(s, [])
    else Result(s.(started := true, seqNo := s.seqNo + 2),
                [Event(s.seqNo, ResponseCreated), Event(s.seqNo + 1, ResponseInProgress)])
  }

  predicate ValidKeys(s: State) {
    forall key :: key in s.callByKey ==> s.callByKey[key] < |s.calls|
  }

  function AfterTool(s: State, e: ToolEvent): (r: Result)
    requires ValidKeys(s)
    ensures ValidKeys(r.state)
  {
    match e
    case Start(key, id, name) =>
      if key in s.callByKey then Result(s, [])
      else
        var fc := FunctionCall("fc_" + FormatNat(|s.calls|), id, name, "", s.nextOut);
        Emit(s.(nextOut := s.nextOut + 1, calls := s.calls + [fc], callByKey := s.callByKey[key := |s.calls|]),
             ItemAdded(fc.outIndex, ItemOf(fc, InProgress)))
    case Args(key, args) =>
      if key !in s.callByKey then Result(s, [])
      else
        var at := s.callByKey[key];
        var fc := s.calls[at];
        Emit(s.(calls := s.calls[at := fc.(args := fc.args + args)]), ArgsDelta(fc.itemId, fc.outIndex, args))
  }

  function AfterTools(s: State, evs: seq<ToolEvent>): (r: Result)
    requires ValidKeys(s)
    ensures ValidKeys(r.state)
  {
    if evs == [] then Result(s, [])
    else
      var r := AfterTools(s, evs[..|evs| - 1]);
      var r' := AfterTool(r.state, evs[|evs| - 1]);
      Result(r'.state, r.out + r'.out)
  }

  function AfterEnsureMsg(s: State): Result {
    if s.msgAdded then Result(s, [])
    else Emit(s.(msgAdded := true, msgOut := s.nextOut, nextOut := s.nextOut + 1),
              ItemAdded(s.nextOut, MessageItem(InProgress, None)))
  }

  function AfterEnsurePart(s: State): Result {
    if s.partAdded then Result(s, []) else Emit(s.(partAdded := true), PartAdded(s.msgOut))
  }

  /** Send pending text; only `Feed` announces the text part, `Finalize` does not. */
  function AfterDrain(s: State, announcePart: bool): Result {
    var suffix := Suffix(s.text, s.emitted);
    if suffix == "" then Result(s, [])
    else
      var r1 := AfterEnsureMsg(s.(emitted := |s.text|));
      var r2 := if announcePart then AfterEnsurePart(r1.state) else Result(r1.state, []);
      var r3 := Emit(r2.state, TextDelta(r2.state.msgOut, suffix));
      Result(r3.state, r1.out + r2.out + r3.out)
  }

  function AfterFeed(d: Dialect, s: State, p: Payload): (r: Result)
    requires ValidKeys(s)
    ensures ValidKeys(r.state)
  {
    var r0 := AfterStart(s.(text := s.text + TextOf(d, p), finish := FinishAfter(d, s.finish, p)));
    var r1 := AfterTools(r0.state, ToolEvents(p));
    var r2 := AfterDrain(r1.state, true);
    Result(r2.state, r0.out + r1.out + r2.out)
  }

  function FinalStatus(finish: string): Status {
    if UpstreamFinish(finish) == "length" then Incomplete else Completed
  }

  function MessageItemOf(s: State): OutputItem {
    MessageItem(FinalStatus(s.finish), if s.partAdded then Some(s.text) else None)
  }

  function MessageClosing(s: State): seq<Body> {
    (if s.partAdded then [TextDone(s.msgOut, s.text), PartDone(s.msgOut, s.text)] else []) +
    [ItemDone(s.msgOut, MessageItemOf(s))]
  }

  function CallClosing(fc: FunctionCall): seq<Body> {
    [ArgsDone(fc.itemId, fc.outIndex, fc.args), ItemDone(fc.outIndex, ItemOf(fc, Completed))]
  }

  /** Closing events are numbered here, message first and then the calls in announcement order. */
  function MessageClosers(s: State): seq<Closer> {
    if s.msgAdded then [Closer(s.msgOut, Numbered(s.seqNo, MessageClosing(s)))] else []
  }

  function CallClosers(seqNo: nat, calls: seq<FunctionCall>): (closers: seq<Closer>)
    ensures |closers| == |calls|
  {
    if calls == [] then []
    else
      var n := |calls| - 1;
      var fc := calls[n];
      CallClosers(seqNo, calls[..n]) +
      [Closer(fc.outIndex, [Event(seqNo + 2 * n, CallClosing(fc)[0]), Event(seqNo + 2 * n + 1, CallClosing(fc)[1])])]
  }

  function Insert(c: Closer, cs: seq<Closer>): seq<Closer> {
    if cs == [] || c.index <= cs[0].index then [c] + cs else [cs[0]] + Insert(c, cs[1..])
  }

  /** The order sort.Slice leaves: ascending output index (the indexes are distinct). */
  function SortClosers(cs: seq<Closer>): seq<Closer> {
    if cs == [] then [] else Insert(cs[0], SortClosers(cs[1..]))
  }

  function Flatten(cs: seq<Closer>): seq<Event> {
    if cs == [] then [] else Flatten(cs[..|cs| - 1]) + cs[|cs| - 1].evs
  }

  function MessageAt(s: State): Option<nat> {
    if s.msgAdded then Some(s.msgOut) else None
  }

  /** The final output array: for each closer the message item, or the call with that index. */
  function OutputOf(msgAt: Option<nat>, msg: OutputItem, calls: seq<FunctionCall>, cs: seq<Closer>): seq<OutputItem> {
    if cs == [] then []
    else
      OutputOf(msgAt, msg, calls, cs[..|cs| - 1]) +
      if msgAt == Some(cs[|cs| - 1].index) then [msg] else FindCall(calls, cs[|cs| - 1].index)
  }

  function FindCall(calls: seq<FunctionCall>, index: nat): seq<OutputItem> {
    if calls == [] then []
    else if calls[0].outIndex == index then [ItemOf(calls[0], Completed)]
    else FindCall(calls[1..], index)
  }

  /** A message item is added when there is no item at all. */
  function AfterEnsureItem(s: State): Result {
    if !s.msgAdded && s.calls == [] then AfterEnsureMsg(s) else Result(s, [])
  }

  /** The first number of the calls' closing events. */
  function CallsFrom(s: State): nat {
    s.seqNo + if s.msgAdded then |MessageClosing(s)| else 0
  }

  function ClosersOf(s: State): seq<Closer> {
    SortClosers(MessageClosers(s) + CallClosers(CallsFrom(s), s.calls))
  }

  function AfterTerminal(s: State, closers: seq<Closer>): Result {
    Emit(s, Terminal(FinalStatus(s.finish), OutputOf(MessageAt(s), MessageItemOf(s), s.calls, closers)))
  }

  /** Close every item in index order, then send the terminal event. */
  function AfterClose(s: State): Result {
    var r := AfterTerminal(s.(seqNo := CallsFrom(s) + 2 * |s.calls|), ClosersOf(s));
    Result(r.state, Flatten(ClosersOf(s)) + r.out)
  }

  function AfterFinalize(s: State): Result {
    var r1 := AfterDrain(s, false);
    var r2 := AfterEnsureItem(r1.state);
    var r3 := AfterClose(r2.state);
    Result(r3.state, r1.out + r2.out + r3.out)
  }

  class ResponsesEventConverter {
    const parser: StreamParser
    var emitted: nat
    var started: bool
    var seqNo: nat
    var partAdded: bool
    var msgAdded: bool
    var msgOut: nat
    var nextOut: nat
    var calls: seq<FunctionCall>
    var callByKey: map<string, nat>

    ghost function Contents(): State
      reads this, parser
    {
      State(parser.text, parser.finish, emitted, started, seqNo, partAdded, msgAdded, msgOut, nextOut, calls, callByKey)
    }

    constructor (up: Dialect)
      ensures Contents() == INITIAL && parser.dialect == up && fresh(parser)
    {
      parser := new StreamParser(up);
      emitted, started, seqNo, partAdded, msgAdded, msgOut, nextOut := 0, false, 0, false, false, 0, 0;
      calls, callByKey := [], map[];
    }

    method Pending() returns (suffix: string)
      modifies this`emitted
      ensures suffix == Suffix(parser.text, old(emitted))
      ensures emitted == if suffix == "" then old(emitted) else |parser.text|
    {
      var full := parser.text;
      if |full| <= emitted {
        return "";
      }
      suffix := full[emitted..];
      emitted := |full|;
    }

    /** Stamp an event with the next sequence number. */
    method Stamp(body: Body) returns (ev: Event)
      modifies this`seqNo
      ensures ev == Event(old(seqNo), body) && seqNo == old(seqNo) + 1
    {
      ev := Event(seqNo, body);
      seqNo := seqNo + 1;
    }

    method EnsureMsg() returns (out: seq<Event>)
      modifies this
      ensures Result(Contents(), out) == AfterEnsureMsg(old(Contents()))
    {
      if msgAdded {
        return [];
      }
      msgAdded := true;
      msgOut := nextOut;
      nextOut := nextOut + 1;
      var ev := Stamp(ItemAdded(msgOut, MessageItem(InProgress, None)));
      out := [ev];
    }

    method FeedTool(ev: ToolEvent) returns (out: seq<Event>)
      requires ValidKeys(Contents())
      modifies this
      ensures Result(Contents(), out) == AfterTool(old(Contents()), ev)
    {
      out := [];
      match ev
      case Start(key, id, name) =>
        if key in callByKey {
          return;
        }
        var fc := FunctionCall("fc_" + FormatNat(|calls|), id, name, "", nextOut);
        nextOut := nextOut + 1;
        callByKey := callByKey[key := |calls|];
        calls := calls + [fc];
        var added := Stamp(ItemAdded(fc.outIndex, ItemOf(fc, InProgress)));
        out := [added];
      case Args(key, args) =>
        if key !in callByKey {
          return;
        }
        var at := callByKey[key];
        var fc := calls[at];
        calls := calls[at := fc.(args := fc.args + args)];
        var delta := Stamp(ArgsDelta(fc.itemId, fc.outIndex, args));
        out := [delta];
    }

    method FeedTools(evs: seq<ToolEvent>) returns (out: seq<Event>)
      requires ValidKeys(Contents())
      modifies this
      ensures Result(Contents(), out) == AfterTools(old(Contents()), evs)
    {
      out := [];
      for i := 0 to |evs|
        invariant ValidKeys(Contents())
        invariant Result(Contents(), out) == AfterTools(old(Contents()), evs[..i])
      {
        assert evs[..i + 1][..i] == evs[..i];
        var more := FeedTool(evs[i]);
        out := out + more;
      }
      assert evs[..|evs|] == evs;
    }

    method EnsurePart() returns (out: seq<Event>)
      modifies this
      ensures Result(Contents(), out) == AfterEnsurePart(old(Contents()))
    {
      out := [];
      if !partAdded {
        partAdded := true;
        var added := Stamp(PartAdded(msgOut));
        out := [added];
      }
    }

    method FeedText() returns (out: seq<Event>)
      modifies this
      ensures Result(Contents(), out) == AfterDrain(old(Contents()), true)
    {
      hide AfterEnsureMsg, AfterEnsurePart;
      out := [];
      var suffix := Pending();
      if suffix != "" {
        out := EnsureMsg();
        var part := EnsurePart();
        out := out + part;
        var delta := Stamp(TextDelta(msgOut, suffix));
        out := out + [delta];
      }
    }

    method Begin() returns (out: seq<Event>)
      modifies this
      ensures Result(Contents(), out) == AfterStart(old(Contents()))
    {
      if started {
        return [];
      }
      started := true;
      var created := Stamp(ResponseCreated);
      var inProgress := Stamp(ResponseInProgress);
      out := [created, inProgress];
    }

    method Feed(data: Payload) returns (out: seq<Event>)
      requires ValidKeys(Contents())
      modifies this, parser
      ensures ValidKeys(Contents())
      ensures Contents() == AfterFeed(parser.dialect, old(Contents()), data).state
      ensures out == AfterFeed(parser.dialect, old(Contents()), data).out
    {
      parser.Feed(data);
      var first := Begin();
      var evs := ExtractToolEvents(data);
      var tools := FeedTools(evs);
      var text := FeedText();
      out := first + tools + text;
    }

    /** The closing events of one call, numbered now and placed by index later. */
    method CloseCalls() returns (closers: seq<Closer>)
      modifies this`seqNo
      ensures closers == CallClosers(old(seqNo), calls)
      ensures Contents() == old(Contents()).(seqNo := old(seqNo) + 2 * |calls|)
    {
      closers := [];
      for i := 0 to |calls|
        invariant seqNo == old(seqNo) + 2 * i
        invariant closers == CallClosers(old(seqNo), calls[..i])
      {
        assert calls[..i + 1][..i] == calls[..i];
        var fc := calls[i];
        var argsDone := Stamp(ArgsDone(fc.itemId, fc.outIndex, fc.args));
        var itemDone := Stamp(ItemDone(fc.outIndex, ItemOf(fc, Completed)));
        closers := closers + [Closer(fc.outIndex, [argsDone, itemDone])];
      }
      assert calls[..|calls|] == calls;
    }

    method CloseMessage(full: string) returns (closers: seq<Closer>)
      requires full == parser.text
      modifies this`seqNo
      ensures closers == MessageClosers(old(Contents()))
      ensures Contents() == old(Contents()).(seqNo := CallsFrom(old(Contents())))
    {
      if !msgAdded {
        return [];
      }
      var evs := [];
      if partAdded {
        var textDone := Stamp(TextDone(msgOut, full));
        var partDone := Stamp(PartDone(msgOut, full));
        evs := [textDone, partDone];
      }
      var status := Completed;
      if UpstreamFinish(parser.finish) == "length" {
        status := Incomplete;
      }
      var itemDone := Stamp(ItemDone(msgOut, MessageItem(status, if partAdded then Some(full) else None)));
      evs := evs + [itemDone];
      closers := [Closer(msgOut, evs)];
      assert evs == Numbered(old(seqNo), MessageClosing(old(Contents())));
    }

    method CollectOutput(status: Status, full: string, cs: seq<Closer>) returns (output: seq<OutputItem>)
      ensures output == OutputOf(if msgAdded then Some(msgOut) else None,
                                 MessageItem(status, if partAdded then Some(full) else None), calls, cs)
    {
      output := [];
      var item := MessageItem(status, if partAdded then Some(full) else None);
      ghost var at := if msgAdded then Some(msgOut) else None;
      for i := 0 to |cs|
        invariant output == OutputOf(at, item, calls, cs[..i])
      {
        assert cs[..i + 1][..i] == cs[..i];
        if cs[i].index == msgOut && msgAdded {
          output := output + [item];
        } else {
          var k := 0;
          while k < |calls| && calls[k].outIndex != cs[i].index
            invariant 0 <= k <= |calls|
            invariant FindCall(calls, cs[i].index) == FindCall(calls[k..], cs[i].index)
          {
            k := k + 1;
          }
          if k < |calls| {
            output := output + [ItemOf(calls[k], Completed)];
          }
        }
      }
      assert cs[..|cs|] == cs;
    }

    method FinishText() returns (out: seq<Event>)
      modifies this
      ensures Result(Contents(), out) == AfterDrain(old(Contents()), false)
    {
      out := [];
      var suffix := Pending();
      if suffix != "" {
        out := EnsureMsg();
        var delta := Stamp(TextDelta(msgOut, suffix));
        out := out + [delta];
      }
    }

    method EnsureItem() returns (out: seq<Event>)
      modifies this
      ensures Result(Contents(), out) == AfterEnsureItem(old(Contents()))
    {
      out := [];
      if !msgAdded && |calls| == 0 {
        out := EnsureMsg();
      }
    }

    method FlattenClosers(closers: seq<Closer>) returns (out: seq<Event>)
      ensures out == Flatten(closers)
    {
      out := [];
      for i := 0 to |closers|
        invariant out == Flatten(closers[..i])
      {
        assert closers[..i + 1][..i] == closers[..i];
        out := out + closers[i].evs;
      }
      assert closers[..|closers|] == closers;
    }

    method CloseItems(full: string) returns (closers: seq<Closer>)
      requires full == parser.text
      modifies this`seqNo
      ensures closers == ClosersOf(old(Contents()))
      ensures Contents() == old(Contents()).(seqNo := CallsFrom(old(Contents())) + 2 * |calls|)
    {
      var message := CloseMessage(full);
      var tools := CloseCalls();
      closers := SortClosers(message + tools);
    }

    method SendTerminal(full: string, closers: seq<Closer>) returns (last: Event)
      requires full == parser.text
      modifies this`seqNo
      ensures Result(Contents(), [last]) == AfterTerminal(old(Contents()), closers)
    {
      var status := if UpstreamFinish(parser.finish) == "length" then Incomplete else Completed;
      var output := CollectOutput(status, full, closers);
      last := Stamp(Terminal(status, output));
    }

    method Close(full: string) returns (out: seq<Event>)
      requires full == parser.text
      modifies this`seqNo
      ensures Result(Contents(), out) == AfterClose(old(Contents()))
    {
      var closers := CloseItems(full);
      var closing := FlattenClosers(closers);
      var last := SendTerminal(full, closers);
      out := closing + [last];
    }

    method Finalize() returns (out: seq<Event>)
      modifies this
      ensures Contents() == AfterFinalize(old(Contents())).state
      ensures out == AfterFinalize(old(Contents())).out
    {
      var full := parser.text;
      var text := FinishText();
      var item := EnsureItem();
      var closing := Close(full);
      out := text + item + closing;
    }
  }

  // ---------- a strict client of the responses protocol ----------

  datatype ItemSoFar =
    | Msg(part: Option<string>)
    | Fc(itemId: string, callId: string, name: string, args: string)

  /** `finals` holds the items already done, in index order; `stage` counts the done events already
      seen for the item at index |finals|. */
  datatype ResponsesClient =
    | Rejected
    | Fresh
    | Greeted
    | Reading(items: seq<ItemSoFar>, finals: seq<OutputItem>, stage: nat)
    | Closed(status: Status, output: seq<OutputItem>)

  predicate Growing(c: ResponsesClient, i: nat) {
    c.Reading? && |c.finals| <= i < |c.items| && (i == |c.finals| ==> c.stage == 0)
  }

  predicate Closing(c: ResponsesClient, i: nat, stage: nat) {
    c.Reading? && i == |c.finals| < |c.items| && c.stage == stage
  }

  function Added(item: OutputItem): ItemSoFar {
    match item
    case MessageItem(_, content) => Msg(None)
    case CallItem(itemId, callId, name, args, _) => Fc(itemId, callId, name, "")
  }

  /** What an item must look like when it is done, and how many done events must precede that. */
  function FinalOf(item: ItemSoFar, status: Status): OutputItem {
    match item
    case Msg(part) => MessageItem(status, part)
    case Fc(itemId, callId, name, args) => CallItem(itemId, callId, name, args, Completed)
  }

  function StagesOf(item: ItemSoFar): nat {
    if item.Fc? then 1 else if item.part.Some? then 2 else 0
  }

  function Read(c: ResponsesClient, b: Body): ResponsesClient {
    match b
    case ResponseCreated => if c.Fresh? then Greeted else Rejected
    case ResponseInProgress => if c.Greeted? then Reading([], [], 0) else Rejected
    case ItemAdded(i, item) =>
      if c.Reading? && c.finals == [] && c.stage == 0 && i == |c.items| && item.status.InProgress? &&
         item == (if item.MessageItem? then MessageItem(InProgress, None) else item.(args := ""))
      then c.(items := c.items + [Added(item)]) else Rejected
    case PartAdded(i) =>
      if Growing(c, i) && c.items[i] == Msg(None) then c.(items := c.items[i := Msg(Some(""))]) else Rejected
    case TextDelta(i, text) =>
      if Growing(c, i) && c.items[i].Msg? && c.items[i].part.Some? && text != ""
      then c.(items := c.items[i := Msg(Some(c.items[i].part.value + text))]) else Rejected
    case ArgsDelta(id, i, args) =>
      if Growing(c, i) && c.items[i].Fc? && c.items[i].itemId == id && args != ""
      then c.(items := c.items[i := c.items[i].(args := c.items[i].args + args)]) else Rejected
    case TextDone(i, text) =>
      if Closing(c, i, 0) && c.items[i] == Msg(Some(text)) then c.(stage := 1) else Rejected
    case PartDone(i, text) =>
      if Closing(c, i, 1) && c.items[i] == Msg(Some(text)) then c.(stage := 2) else Rejected
    case ArgsDone(id, i, args) =>
      if Closing(c, i, 0) && c.items[i].Fc? && c.items[i].itemId == id && c.items[i].args == args
      then c.(stage := 1) else Rejected
    case ItemDone(i, item) =>
      if c.Reading? && i < |c.items| && Closing(c, i, StagesOf(c.items[i])) &&
         !item.status.InProgress? && item == FinalOf(c.items[i], item.status)
      then c.(finals := c.finals + [item], stage := 0) else Rejected
    case Terminal(status, output) =>
      if c.Reading? && |c.finals| == |c.items| > 0 && output == c.finals && !status.InProgress?
      then Closed(status, output) else Rejected
  }

  function ReadAll(c: ResponsesClient, bs: seq<Body>): ResponsesClient {
    if bs == [] then c else Read(ReadAll(c, bs[..|bs| - 1]), bs[|bs| - 1])
  }

  function Bodies(es: seq<Event>): (bs: seq<Body>)
    ensures |bs| == |es|
  {
    seq(|es|, i requires 0 <= i < |es| => es[i].body)
  }

  lemma {:induction false} ReadConcat(c: ResponsesClient, a: seq<Body>, b: seq<Body>)
    ensures ReadAll(c, a + b) == ReadAll(ReadAll(c, a), b)
  {
    if b == [] {
      assert a + b == a;
    } else {
      assert (a + b)[..|a + b| - 1] == a + b[..|b| - 1];
      ReadConcat(c, a, b[..|b| - 1]);
    }
  }

  /** Reading events one batch after the other. */
  lemma ReadBatch(c: ResponsesClient, a: seq<Event>, b: seq<Event>)
    ensures ReadAll(c, Bodies(a + b)) == ReadAll(ReadAll(c, Bodies(a)), Bodies(b))
  {
    assert Bodies(a + b) == Bodies(a) + Bodies(b);
    ReadConcat(c, Bodies(a), Bodies(b));
  }

  lemma ReadOne(c: ResponsesClient, b: Body)
    ensures ReadAll(c, [b]) == Read(c, b)
  {
  }

  lemma ReadTwo(c: ResponsesClient, a: Body, b: Body)
    ensures ReadAll(c, [a, b]) == Read(Read(c, a), b)
  {
    assert [a, b] == [a] + [b];
    ReadConcat(c, [a], [b]);
    ReadOne(c, a);
    ReadOne(Read(c, a), b);
  }

  lemma ReadThree(c: ResponsesClient, a: Body, b: Body, d: Body)
    ensures ReadAll(c, [a, b, d]) == Read(Read(Read(c, a), b), d)
  {
    assert [a, b, d] == [a, b] + [d];
    ReadConcat(c, [a, b], [d]);
    ReadTwo(c, a, b);
    ReadOne(Read(Read(c, a), b), d);
  }

  // ---------- the items of a state ----------

  /** The output index of call `i` when the message item sits at `at`. */
  function IndexOf(at: Option<nat>, i: nat): nat {
    if at.Some? && at.value <= i then i + 1 else i
  }

  function SoFar(fc: FunctionCall): ItemSoFar {
    Fc(fc.itemId, if fc.callId == "" then fc.itemId else fc.callId, fc.name, fc.args)
  }

  function ItemAt(calls: seq<FunctionCall>, at: Option<nat>, part: Option<string>, k: nat): ItemSoFar
    requires at.Some? ==> at.value <= |calls|
    requires k < |calls| + if at.Some? then 1 else 0
  {
    if at == Some(k) then Msg(part)
    else SoFar(calls[if at.Some? && at.value < k then k - 1 else k])
  }

  /** All items in index order. */
  function ItemsSoFar(calls: seq<FunctionCall>, at: Option<nat>, part: Option<string>): (items: seq<ItemSoFar>)
    requires at.Some? ==> at.value <= |calls|
    ensures |items| == |calls| + if at.Some? then 1 else 0
    ensures forall k :: 0 <= k < |items| ==> items[k] == ItemAt(calls, at, part, k)
  {
    var n := |calls| + if at.Some? then 1 else 0;
    seq(n, k requires 0 <= k < n => ItemAt(calls, at, part, k))
  }

  lemma ItemsGrow(calls: seq<FunctionCall>, at: Option<nat>, part: Option<string>, fc: FunctionCall)
    requires at.Some? ==> at.value <= |calls|
    ensures ItemsSoFar(calls + [fc], at, part) == ItemsSoFar(calls, at, part) + [SoFar(fc)]
  {
  }

  lemma ItemsExtend(calls: seq<FunctionCall>, at: Option<nat>, part: Option<string>, i: nat, fc: FunctionCall)
    requires at.Some? ==> at.value <= |calls|
    requires i < |calls|
    ensures ItemsSoFar(calls[i := fc], at, part) == ItemsSoFar(calls, at, part)[IndexOf(at, i) := SoFar(fc)]
  {
  }

  lemma ItemsAddMessage(calls: seq<FunctionCall>, part: Option<string>)
    ensures ItemsSoFar(calls, Some(|calls|), part) == ItemsSoFar(calls, None, None) + [Msg(part)]
  {
  }

  lemma ItemsExtendMessage(calls: seq<FunctionCall>, at: nat, part: Option<string>, part': Option<string>)
    requires at <= |calls|
    ensures ItemsSoFar(calls, Some(at), part') == ItemsSoFar(calls, Some(at), part)[at := Msg(part')]
  {
  }

  // ---------- what feeding keeps ----------

  function Fed(d: Dialect, ps: seq<Payload>): (r: Result)
    ensures ValidKeys(r.state)
  {
    if ps == [] then Result(INITIAL, [])
    else
      var r := Fed(d, ps[..|ps| - 1]);
      var r' := AfterFeed(d, r.state, ps[|ps| - 1]);
      Result(r'.state, r.out + r'.out)
  }

  /** Everything written to the client for upstream payloads `ps`. */
  function Stream(d: Dialect, ps: seq<Payload>): seq<Event> {
    Fed(d, ps).out + AfterFinalize(Fed(d, ps).state).out
  }

  /** The calls kept by the converter are the calls the stream makes. */
  predicate Mirrors(calls: seq<FunctionCall>, expected: seq<Call>) {
    |calls| == |expected| && forall i :: 0 <= i < |calls| ==> MirrorsCall(calls[i], expected[i], i)
  }

  predicate MirrorsCall(fc: FunctionCall, call: Call, i: nat) {
    && fc.itemId == "fc_" + FormatNat(i)
    && call == Call(if fc.callId == "" then fc.itemId else fc.callId, fc.name, fc.args)
  }

  predicate Shape(s: State) {
    && s.started && s.partAdded == s.msgAdded
    && (s.msgAdded ==> s.msgOut <= |s.calls|)
    && s.nextOut == |s.calls| + (if s.msgAdded then 1 else 0)
    && forall i :: 0 <= i < |s.calls| ==> s.calls[i].outIndex == IndexOf(MessageAt(s), i)
  }

  predicate Knows(s: State, evs: seq<ToolEvent>) {
    Tracks(s.callByKey, Announced(evs), 0) && Mirrors(s.calls, CallsOf(Responses, evs))
  }

  /** Where the client stands while items are still growing. */
  function Shown(s: State, text: string): ResponsesClient
    requires s.msgAdded ==> s.msgOut <= |s.calls|
  {
    Reading(ItemsSoFar(s.calls, MessageAt(s), Some(text)), [], 0)
  }

  lemma StartKnown(s: State, evs: seq<ToolEvent>, e: ToolEvent)
    requires Knows(s, evs) && ValidKeys(s) && e.Start? && e.key !in s.callByKey
    ensures Knows(AfterTool(s, e).state, evs + [e])
  {
    hide Tracks, Mirrors, CallsOf, Announced;
    TracksDecides(s.callByKey, Announced(evs), 0, e.key);
    CallsAfterStart(Responses, evs, e);
    TracksGrows(s.callByKey, Announced(evs), 0, Announcement(e.key, e.id, e.name));
    SameLength(s, evs);
    MirrorsGrows(s.calls, CallsOf(Responses, evs), FunctionCall("fc_" + FormatNat(|s.calls|), e.id, e.name, "", s.nextOut),
                 Call(CallId(Responses, |s.calls|, e.id), e.name, ""));
  }

  lemma SameLength(s: State, evs: seq<ToolEvent>)
    requires Knows(s, evs)
    ensures |s.calls| == |CallsOf(Responses, evs)| == |Announced(evs)|
  {
  }

  lemma MirrorsGrows(calls: seq<FunctionCall>, expected: seq<Call>, fc: FunctionCall, call: Call)
    requires Mirrors(calls, expected) && MirrorsCall(fc, call, |calls|)
    ensures Mirrors(calls + [fc], expected + [call])
  {
    hide MirrorsCall;
  }

  lemma ArgsKnown(s: State, evs: seq<ToolEvent>, e: ToolEvent)
    requires Knows(s, evs) && ValidKeys(s) && e.Args? && e.key in s.callByKey
    ensures Knows(AfterTool(s, e).state, evs + [e])
  {
    CallsAfterArgs(Responses, evs, e, s.callByKey[e.key]);
  }

  lemma OtherKnown(s: State, evs: seq<ToolEvent>, e: ToolEvent)
    requires Knows(s, evs) && e.Start? == (e.key in s.callByKey)
    ensures Knows(s, evs + [e])
  {
    TracksDecides(s.callByKey, Announced(evs), 0, e.key);
    CallsAfterNothing(Responses, evs, e);
  }

  lemma StartShown(s: State, text: string, e: ToolEvent)
    requires Shape(s) && ValidKeys(s) && e.Start? && e.key !in s.callByKey
    ensures var r := AfterTool(s, e);
            Shape(r.state) && ReadAll(Shown(s, text), Bodies(r.out)) == Shown(r.state, text)
  {
    var fc := FunctionCall("fc_" + FormatNat(|s.calls|), e.id, e.name, "", s.nextOut);
    ItemsGrow(s.calls, MessageAt(s), Some(text), fc);
    assert Bodies(AfterTool(s, e).out) == [ItemAdded(fc.outIndex, ItemOf(fc, InProgress))];
    ReadOne(Shown(s, text), ItemAdded(fc.outIndex, ItemOf(fc, InProgress)));
  }

  lemma ArgsShown(s: State, text: string, e: ToolEvent)
    requires Shape(s) && ValidKeys(s) && e.Args? && e.args != "" && e.key in s.callByKey
    ensures var r := AfterTool(s, e);
            Shape(r.state) && ReadAll(Shown(s, text), Bodies(r.out)) == Shown(r.state, text)
  {
    var at := s.callByKey[e.key];
    var fc := s.calls[at];
    ItemsExtend(s.calls, MessageAt(s), Some(text), at, fc.(args := fc.args + e.args));
    assert Bodies(AfterTool(s, e).out) == [ArgsDelta(fc.itemId, fc.outIndex, e.args)];
    ReadOne(Shown(s, text), ArgsDelta(fc.itemId, fc.outIndex, e.args));
  }

  predicate SameText(s: State, s': State) {
    s'.text == s.text && s'.finish == s.finish && s'.emitted == s.emitted && MessageAt(s') == MessageAt(s)
  }

  lemma {:induction false} ToolsKeepInv(s: State, evs: seq<ToolEvent>, text: string, more: seq<ToolEvent>)
    requires Shape(s) && ValidKeys(s) && Knows(s, evs)
    requires forall e :: e in more && e.Args? ==> e.args != ""
    ensures var r := AfterTools(s, more);
            && Shape(r.state) && Knows(r.state, evs + more) && SameText(s, r.state)
            && ReadAll(Shown(s, text), Bodies(r.out)) == Shown(r.state, text)
  {
    if more == [] {
      assert evs + more == evs;
    } else {
      var init, e := more[..|more| - 1], more[|more| - 1];
      assert evs + init + [e] == evs + more;
      ToolsKeepInv(s, evs, text, init);
      var r := AfterTools(s, init);
      ReadBatch(Shown(s, text), r.out, AfterTool(r.state, e).out);
      if e.Start? && e.key !in r.state.callByKey {
        StartKnown(r.state, evs + init, e);
        StartShown(r.state, text, e);
      } else if e.Args? && e.key in r.state.callByKey {
        ArgsKnown(r.state, evs + init, e);
        ArgsShown(r.state, text, e);
      } else {
        OtherKnown(r.state, evs + init, e);
      }
    }
  }

  lemma FirstTextShown(calls: seq<FunctionCall>, more: string)
    requires more != ""
    ensures ReadAll(Reading(ItemsSoFar(calls, None, None), [], 0),
                    [ItemAdded(|calls|, MessageItem(InProgress, None)), PartAdded(|calls|), TextDelta(|calls|, more)]) ==
            Reading(ItemsSoFar(calls, Some(|calls|), Some(more)), [], 0)
  {
    var at := |calls|;
    var client := Reading(ItemsSoFar(calls, None, None), [], 0);
    ReadThree(client, ItemAdded(at, MessageItem(InProgress, None)), PartAdded(at), TextDelta(at, more));
    ItemsAddMessage(calls, None);
    ItemsExtendMessage(calls, at, None, Some(""));
    ItemsExtendMessage(calls, at, Some(""), Some(more));
    assert "" + more == more;
  }

  lemma MoreTextShown(calls: seq<FunctionCall>, at: nat, text: string, more: string)
    requires more != "" && at <= |calls|
    ensures ReadAll(Reading(ItemsSoFar(calls, Some(at), Some(text)), [], 0), [TextDelta(at, more)]) ==
            Reading(ItemsSoFar(calls, Some(at), Some(text + more)), [], 0)
  {
    ReadOne(Reading(ItemsSoFar(calls, Some(at), Some(text)), [], 0), TextDelta(at, more));
    ItemsExtendMessage(calls, at, Some(text), Some(text + more));
  }

  lemma DrainBodies(s: State, more: string)
    requires Shape(s) && Suffix(s.text, s.emitted) == more && more != ""
    ensures var r := AfterDrain(s, true);
            && Shape(r.state) && r.state.calls == s.calls && r.state.callByKey == s.callByKey
            && MessageAt(r.state) == (if s.msgAdded then MessageAt(s) else Some(|s.calls|))
            && r.state.text == s.text && r.state.finish == s.finish && r.state.emitted == |s.text|
            && Bodies(r.out) == if s.msgAdded then [TextDelta(s.msgOut, more)]
                                else [ItemAdded(|s.calls|, MessageItem(InProgress, None)), PartAdded(|s.calls|), TextDelta(|s.calls|, more)]
  {
  }

  lemma DrainShown(s: State, text: string, more: string)
    requires Shape(s) && Suffix(s.text, s.emitted) == more && more != ""
    requires !s.msgAdded ==> text == ""
    ensures ReadAll(Shown(s, text), Bodies(AfterDrain(s, true).out)) ==
            Reading(ItemsSoFar(s.calls, if s.msgAdded then MessageAt(s) else Some(|s.calls|), Some(text + more)), [], 0)
  {
    DrainBodies(s, more);
    if s.msgAdded {
      MoreTextShown(s.calls, s.msgOut, text, more);
    } else {
      assert ItemsSoFar(s.calls, None, Some(text)) == ItemsSoFar(s.calls, None, None);
      assert "" + more == more;
      FirstTextShown(s.calls, more);
    }
  }

  predicate Live(s: State, evs: seq<ToolEvent>, client: ResponsesClient) {
    && Shape(s) && ValidKeys(s) && Knows(s, evs)
    && s.emitted == |s.text| && (!s.msgAdded ==> s.text == "")
    && client == Shown(s, s.text)
  }

  predicate Unstarted(s: State, evs: seq<ToolEvent>, client: ResponsesClient) {
    s == INITIAL && evs == [] && client == Fresh
  }

  lemma BeginKeepsInv(s: State, s0: State, evs: seq<ToolEvent>, client: ResponsesClient)
    requires Live(s, evs, client) || Unstarted(s, evs, client)
    requires s0 == s.(text := s0.text, finish := s0.finish)
    ensures var r := AfterStart(s0);
            && Shape(r.state) && ValidKeys(r.state) && Knows(r.state, evs) && SameText(s0, r.state)
            && ReadAll(client, Bodies(r.out)) == Shown(r.state, s.text)
  {
    if !s.started {
      assert Announced([]) == [] && CallsOf(Responses, []) == [];
      assert Bodies(AfterStart(s0).out) == [ResponseCreated, ResponseInProgress];
      ReadTwo(Fresh, ResponseCreated, ResponseInProgress);
    } else {
      assert Bodies([]) == [];
    }
  }

  lemma FeedKeepsInv(d: Dialect, s: State, evs: seq<ToolEvent>, client: ResponsesClient, p: Payload)
    requires Live(s, evs, client) || Unstarted(s, evs, client)
    ensures var r := AfterFeed(d, s, p);
            && Live(r.state, evs + ToolEvents(p), ReadAll(client, Bodies(r.out)))
            && r.state.text == s.text + TextOf(d, p) && r.state.finish == FinishAfter(d, s.finish, p)
            && MessageAt(r.state) == (if s.msgAdded then MessageAt(s)
                                      else if TextOf(d, p) != "" then Some(|Announced(evs + ToolEvents(p))|)
                                      else None)
  {
    FragmentsAreNonEmpty(p);
    var more := TextOf(d, p);
    var s0 := s.(text := s.text + more, finish := FinishAfter(d, s.finish, p));
    var r0 := AfterStart(s0);
    BeginKeepsInv(s, s0, evs, client);
    ToolsKeepInv(r0.state, evs, s.text, ToolEvents(p));
    var r1 := AfterTools(r0.state, ToolEvents(p));
    SuffixIsTheAddition(s.text, more);
    var r2 := AfterDrain(r1.state, true);
    if more != "" {
      DrainBodies(r1.state, more);
      DrainShown(r1.state, s.text, more);
    } else {
      assert s.text + "" == s.text;
      assert Bodies([]) == [];
    }
    ReadBatch(client, r0.out, r1.out);
    ReadBatch(client, r0.out + r1.out, r2.out);
  }

  lemma {:induction false} FeedsInform(d: Dialect, ps: seq<Payload>)
    ensures var r := Fed(d, ps);
            && r.state.text == Transcript(d, ps) && r.state.finish == FinishOf(d, ps)
            && MessageAt(r.state) == CallsBeforeText(d, ps)
    ensures if ps == [] then Unstarted(Fed(d, ps).state, EventsOf(ps), ReadAll(Fresh, Bodies(Fed(d, ps).out)))
            else Live(Fed(d, ps).state, EventsOf(ps), ReadAll(Fresh, Bodies(Fed(d, ps).out)))
  {
    if ps == [] {
      assert Bodies([]) == [];
    } else {
      var init, p := ps[..|ps| - 1], ps[|ps| - 1];
      FeedsInform(d, init);
      var r := Fed(d, init);
      FeedKeepsInv(d, r.state, EventsOf(init), ReadAll(Fresh, Bodies(r.out)), p);
      ReadBatch(Fresh, r.out, AfterFeed(d, r.state, p).out);
    }
  }

  // ---------- closing ----------

  /** The message item's text part, if one was announced. */
  function PartOf(s: State): Option<string> {
    if s.partAdded then Some(s.text) else None
  }

  predicate Closable(s: State) {
    && (s.msgAdded ==> s.msgOut <= |s.calls|)
    && (forall i :: 0 <= i < |s.calls| ==> s.calls[i].outIndex == IndexOf(MessageAt(s), i))
  }

  function ItemsOf(s: State): seq<ItemSoFar>
    requires Closable(s)
  {
    ItemsSoFar(s.calls, MessageAt(s), PartOf(s))
  }

  function ClosingBodies(k: nat, item: ItemSoFar, status: Status): seq<Body> {
    match item
    case Msg(Some(text)) => [TextDone(k, text), PartDone(k, text), ItemDone(k, FinalOf(item, status))]
    case Msg(None) => [ItemDone(k, FinalOf(item, status))]
    case Fc(itemId, _, _, args) => [ArgsDone(itemId, k, args), ItemDone(k, FinalOf(item, status))]
  }

  function Finals(items: seq<ItemSoFar>, status: Status): (finals: seq<OutputItem>)
    ensures |finals| == |items|
    ensures forall k :: 0 <= k < |items| ==> finals[k] == FinalOf(items[k], status)
  {
    seq(|items|, k requires 0 <= k < |items| => FinalOf(items[k], status))
  }

  lemma FinalsGrow(items: seq<ItemSoFar>, n: nat, status: Status)
    requires n < |items|
    ensures Finals(items[..n + 1], status) == Finals(items[..n], status) + [FinalOf(items[n], status)]
  {
  }

  predicate Ascending(cs: seq<Closer>) {
    forall i, j :: 0 <= i < j < |cs| ==> cs[i].index < cs[j].index
  }

  lemma {:induction false} SortKeepsAscending(cs: seq<Closer>)
    requires Ascending(cs)
    ensures SortClosers(cs) == cs
  {
    if cs != [] {
      SortKeepsAscending(cs[1..]);
    }
  }

  lemma {:induction false} InsertSplits(c: Closer, cs: seq<Closer>, p: nat)
    requires p <= |cs|
    requires forall i :: 0 <= i < p ==> cs[i].index < c.index
    requires forall i :: p <= i < |cs| ==> c.index <= cs[i].index
    ensures Insert(c, cs) == cs[..p] + [c] + cs[p..]
  {
    if p > 0 {
      InsertSplits(c, cs[1..], p - 1);
      assert cs == [cs[0]] + cs[1..];
      assert cs[1..][..p - 1] == cs[1..p] && cs[1..][p - 1..] == cs[p..];
    }
  }

  lemma {:induction false} CallCloserAt(seqNo: nat, calls: seq<FunctionCall>, i: nat)
    requires i < |calls|
    ensures CallClosers(seqNo, calls)[i] ==
            Closer(calls[i].outIndex, [Event(seqNo + 2 * i, CallClosing(calls[i])[0]), Event(seqNo + 2 * i + 1, CallClosing(calls[i])[1])])
  {
    if i < |calls| - 1 {
      CallCloserAt(seqNo, calls[..|calls| - 1], i);
    }
  }

  /** Sorting puts the message item's closing events at its index among the calls' closing events. */
  lemma ClosersSplit(s: State)
    requires Closable(s)
    ensures var cs := CallClosers(CallsFrom(s), s.calls);
            ClosersOf(s) == if s.msgAdded then cs[..s.msgOut] + MessageClosers(s) + cs[s.msgOut..] else cs
  {
    var cs := CallClosers(CallsFrom(s), s.calls);
    forall i | 0 <= i < |cs|
      ensures cs[i].index == IndexOf(MessageAt(s), i)
    {
      CallCloserAt(CallsFrom(s), s.calls, i);
    }
    SortKeepsAscending(cs);
    if s.msgAdded {
      InsertSplits(MessageClosers(s)[0], cs, s.msgOut);
      assert (MessageClosers(s) + cs)[1..] == cs;
    } else {
      assert MessageClosers(s) + cs == cs;
    }
  }

  lemma CloserAt(s: State, k: nat)
    requires Closable(s) && k < |s.calls| + if s.msgAdded then 1 else 0
    ensures |ClosersOf(s)| == |s.calls| + if s.msgAdded then 1 else 0
    ensures ClosersOf(s)[k] ==
            if s.msgAdded && k == s.msgOut then MessageClosers(s)[0]
            else CallClosers(CallsFrom(s), s.calls)[if s.msgAdded && s.msgOut < k then k - 1 else k]
  {
    ClosersSplit(s);
  }

  lemma CloserClosesItem(s: State, k: nat)
    requires Closable(s) && k < |ItemsOf(s)|
    ensures |ClosersOf(s)| == |ItemsOf(s)| && ClosersOf(s)[k].index == k
    ensures Bodies(ClosersOf(s)[k].evs) == ClosingBodies(k, ItemsOf(s)[k], FinalStatus(s.finish))
  {
    hide ClosersOf, FinalStatus, CallClosers;
    CloserAt(s, k);
    if s.msgAdded && k == s.msgOut {
      MessageCloserClosesItem(s);
    } else {
      CallCloserAt(CallsFrom(s), s.calls, if s.msgAdded && s.msgOut < k then k - 1 else k);
    }
  }

  lemma MessageCloserClosesItem(s: State)
    requires Closable(s) && s.msgAdded
    ensures Bodies(MessageClosers(s)[0].evs) == ClosingBodies(s.msgOut, ItemsOf(s)[s.msgOut], FinalStatus(s.finish))
  {
    assert Bodies(Numbered(s.seqNo, MessageClosing(s))) == MessageClosing(s);
  }

  lemma ReadClosing(items: seq<ItemSoFar>, finals: seq<OutputItem>, status: Status)
    requires |finals| < |items| && !status.InProgress?
    ensures ReadAll(Reading(items, finals, 0), ClosingBodies(|finals|, items[|finals|], status)) ==
            Reading(items, finals + [FinalOf(items[|finals|], status)], 0)
  {
    var k := |finals|;
    var done := ItemDone(k, FinalOf(items[k], status));
    match items[k]
    case Msg(Some(text)) => ReadThree(Reading(items, finals, 0), TextDone(k, text), PartDone(k, text), done);
    case Msg(None) => ReadOne(Reading(items, finals, 0), done);
    case Fc(itemId, _, _, args) => ReadTwo(Reading(items, finals, 0), ArgsDone(itemId, k, args), done);
  }

  lemma {:induction false} ReadClosers(items: seq<ItemSoFar>, status: Status, cs: seq<Closer>)
    requires |cs| <= |items| && !status.InProgress?
    requires forall k :: 0 <= k < |cs| ==> Bodies(cs[k].evs) == ClosingBodies(k, items[k], status)
    ensures ReadAll(Reading(items, [], 0), Bodies(Flatten(cs))) == Reading(items, Finals(items[..|cs|], status), 0)
  {
    if cs == [] {
      assert Bodies([]) == [];
    } else {
      var n := |cs| - 1;
      ReadClosers(items, status, cs[..n]);
      ReadBatch(Reading(items, [], 0), Flatten(cs[..n]), cs[n].evs);
      ReadClosing(items, Finals(items[..n], status), status);
      FinalsGrow(items, n, status);
    }
  }

  lemma {:induction false} FindCallAt(calls: seq<FunctionCall>, i: nat)
    requires i < |calls|
    requires forall j :: 0 <= j < i ==> calls[j].outIndex != calls[i].outIndex
    ensures FindCall(calls, calls[i].outIndex) == [ItemOf(calls[i], Completed)]
  {
    if i > 0 {
      FindCallAt(calls[1..], i - 1);
    }
  }

  lemma {:induction false} OutputListsItems(s: State, cs: seq<Closer>)
    requires Closable(s) && |cs| <= |ItemsOf(s)|
    requires forall k :: 0 <= k < |cs| ==> cs[k].index == k
    ensures OutputOf(MessageAt(s), MessageItemOf(s), s.calls, cs) == Finals(ItemsOf(s)[..|cs|], FinalStatus(s.finish))
  {
    hide FinalStatus, FindCall;
    if cs != [] {
      var n := |cs| - 1;
      OutputListsItems(s, cs[..n]);
      FinalsGrow(ItemsOf(s), n, FinalStatus(s.finish));
      if MessageAt(s) != Some(n) {
        FindCallAt(s.calls, if s.msgAdded && s.msgOut < n then n - 1 else n);
      }
    }
  }

  lemma ClosersCloseItems(s: State)
    requires Closable(s)
    ensures |ClosersOf(s)| == |ItemsOf(s)|
    ensures forall k :: 0 <= k < |ItemsOf(s)| ==> ClosersOf(s)[k].index == k
    ensures forall k :: 0 <= k < |ItemsOf(s)| ==>
              Bodies(ClosersOf(s)[k].evs) == ClosingBodies(k, ItemsOf(s)[k], FinalStatus(s.finish))
  {
    ClosersSplit(s);
    forall k | 0 <= k < |ItemsOf(s)|
      ensures ClosersOf(s)[k].index == k
      ensures Bodies(ClosersOf(s)[k].evs) == ClosingBodies(k, ItemsOf(s)[k], FinalStatus(s.finish))
    {
      CloserClosesItem(s, k);
    }
  }

  /** A client that has read all items reads the closing events and the terminal event. */
  lemma CloseShown(s: State)
    requires Closable(s) && ItemsOf(s) != []
    ensures ReadAll(Reading(ItemsOf(s), [], 0), Bodies(AfterClose(s).out)) ==
            Closed(FinalStatus(s.finish), Finals(ItemsOf(s), FinalStatus(s.finish)))
  {
    hide Closable, ItemsOf, ClosersOf, Flatten, OutputOf, MessageItemOf, AfterTerminal, CallsFrom, ReadAll, Finals, Bodies;
    ClosersCloseItems(s);
    ReadAllClosers(s, ClosersOf(s));
    ReadTerminal(s, ClosersOf(s), CallsFrom(s) + 2 * |s.calls|);
  }

  lemma ReadAllClosers(s: State, cs: seq<Closer>)
    requires Closable(s) && |cs| == |ItemsOf(s)|
    requires forall k :: 0 <= k < |cs| ==> cs[k].index == k
    requires forall k :: 0 <= k < |cs| ==> Bodies(cs[k].evs) == ClosingBodies(k, ItemsOf(s)[k], FinalStatus(s.finish))
    ensures OutputOf(MessageAt(s), MessageItemOf(s), s.calls, cs) == Finals(ItemsOf(s), FinalStatus(s.finish))
    ensures ReadAll(Reading(ItemsOf(s), [], 0), Bodies(Flatten(cs))) ==
            Reading(ItemsOf(s), Finals(ItemsOf(s), FinalStatus(s.finish)), 0)
  {
    assert ItemsOf(s)[..|cs|] == ItemsOf(s);
    ReadClosers(ItemsOf(s), FinalStatus(s.finish), cs);
    OutputListsItems(s, cs);
  }

  lemma ReadTerminal(s: State, cs: seq<Closer>, seqNo: nat)
    requires Closable(s) && ItemsOf(s) != []
    requires var finals := Finals(ItemsOf(s), FinalStatus(s.finish));
             && OutputOf(MessageAt(s), MessageItemOf(s), s.calls, cs) == finals
             && ReadAll(Reading(ItemsOf(s), [], 0), Bodies(Flatten(cs))) == Reading(ItemsOf(s), finals, 0)
    ensures ReadAll(Reading(ItemsOf(s), [], 0), Bodies(Flatten(cs) + AfterTerminal(s.(seqNo := seqNo), cs).out)) ==
            Closed(FinalStatus(s.finish), Finals(ItemsOf(s), FinalStatus(s.finish)))
  {
    var finals := Finals(ItemsOf(s), FinalStatus(s.finish));
    var last := Terminal(FinalStatus(s.finish), finals);
    ReadBatch(Reading(ItemsOf(s), [], 0), Flatten(cs), AfterTerminal(s.(seqNo := seqNo), cs).out);
    assert Bodies(AfterTerminal(s.(seqNo := seqNo), cs).out) == [last];
    ReadOne(Reading(ItemsOf(s), finals, 0), last);
  }

  function CallItems(evs: seq<ToolEvent>): (items: seq<OutputItem>)
    ensures var calls := CallsOf(Responses, evs);
            |items| == |calls| &&
            forall i :: 0 <= i < |calls| ==>
              items[i] == CallItem("fc_" + FormatNat(i), calls[i].id, calls[i].name, calls[i].args, Completed)
  {
    var calls := CallsOf(Responses, evs);
    seq(|calls|, i requires 0 <= i < |calls| =>
      CallItem("fc_" + FormatNat(i), calls[i].id, calls[i].name, calls[i].args, Completed))
  }

  /** What a client should end up with: the calls in announcement order, and the message item where the
      first text found it, or an empty message item when there is nothing at all. */
  function ExpectedOutput(d: Dialect, ps: seq<Payload>): seq<OutputItem> {
    var items := CallItems(EventsOf(ps));
    var status := FinalStatus(FinishOf(d, ps));
    match CallsBeforeText(d, ps)
    case Some(at) => items[..at] + [MessageItem(status, Some(Transcript(d, ps)))] + items[at..]
    case None => if items == [] then [MessageItem(status, None)] else items
  }

  lemma FinalsAreExpected(s: State, calls: seq<Call>, items: seq<OutputItem>)
    requires Closable(s) && Mirrors(s.calls, calls)
    requires |items| == |calls|
    requires forall i :: 0 <= i < |calls| ==>
               items[i] == CallItem("fc_" + FormatNat(i), calls[i].id, calls[i].name, calls[i].args, Completed)
    ensures Finals(ItemsOf(s), FinalStatus(s.finish)) ==
            if s.msgAdded then items[..s.msgOut] + [MessageItemOf(s)] + items[s.msgOut..] else items
  {
    hide FinalStatus, FormatNat;
    forall i | 0 <= i < |items|
      ensures FinalOf(SoFar(s.calls[i]), FinalStatus(s.finish)) == items[i]
    {
    }
  }

  /** After the feeds only a stream without text and calls still needs an item. */
  lemma EnsureItemShown(s: State, evs: seq<ToolEvent>, client: ResponsesClient)
    requires Live(s, evs, client)
    ensures var r := AfterEnsureItem(s);
            && Closable(r.state) && ItemsOf(r.state) != [] && r.state.text == s.text && r.state.finish == s.finish
            && r.state.calls == s.calls
            && (r.state.msgAdded <==> s.msgAdded || s.calls == [])
            && r.state.msgOut == (if s.msgAdded || s.calls != [] then s.msgOut else 0)
            && PartOf(r.state) == (if s.msgAdded then Some(s.text) else None)
            && ReadAll(client, Bodies(r.out)) == Reading(ItemsOf(r.state), [], 0)
  {
    var r := AfterEnsureItem(s);
    if !s.msgAdded && s.calls == [] {
      assert ItemsSoFar(s.calls, None, None) == [];
      ItemsAddMessage(s.calls, None);
      assert Bodies(r.out) == [ItemAdded(0, MessageItem(InProgress, None))];
      ReadOne(client, ItemAdded(0, MessageItem(InProgress, None)));
    } else {
      assert Bodies([]) == [];
      if !s.msgAdded {
        assert ItemsSoFar(s.calls, None, Some(s.text)) == ItemsSoFar(s.calls, None, None);
      }
    }
  }

  lemma FinalizeShown(s: State, evs: seq<ToolEvent>, client: ResponsesClient)
    requires Live(s, evs, client)
    ensures var s' := AfterEnsureItem(s).state;
            && Closable(s')
            && ReadAll(client, Bodies(AfterFinalize(s).out)) == Closed(FinalStatus(s.finish), Finals(ItemsOf(s'), FinalStatus(s.finish)))
  {
    FinalizeOut(s);
    hide Live, Closable, ItemsOf, AfterClose, AfterEnsureItem, AfterFinalize, Bodies, ReadAll, FinalStatus, Finals;
    EnsureItemShown(s, evs, client);
    var r := AfterEnsureItem(s);
    CloseShown(r.state);
    ReadBatch(client, r.out, AfterClose(r.state).out);
  }

  lemma FinalItems(d: Dialect, ps: seq<Payload>, s: State, client: ResponsesClient)
    requires Live(s, EventsOf(ps), client)
    requires s.text == Transcript(d, ps) && s.finish == FinishOf(d, ps) && MessageAt(s) == CallsBeforeText(d, ps)
    ensures Closable(AfterEnsureItem(s).state)
    ensures Finals(ItemsOf(AfterEnsureItem(s).state), FinalStatus(s.finish)) == ExpectedOutput(d, ps)
  {
    EnsureItemShown(s, EventsOf(ps), client);
    var s', items := AfterEnsureItem(s).state, CallItems(EventsOf(ps));
    FinalsAreExpected(s', CallsOf(Responses, EventsOf(ps)), items);
    assert MessageItemOf(s') == MessageItem(FinalStatus(s.finish), PartOf(s'));
    if !s.msgAdded && s.calls == [] {
      assert items[..0] + [MessageItemOf(s')] + items[0..] == [MessageItemOf(s')];
    }
  }

  /** A stream that is never fed sends closing events without any announcement. */
  lemma UnfedIsRejected()
    ensures ReadAll(Fresh, Bodies(AfterFinalize(INITIAL).out)).Rejected?
  {
    var es := AfterFinalize(INITIAL).out;
    var first := ItemAdded(0, MessageItem(InProgress, None));
    assert es[0].body == first;
    assert Bodies(es) == [first] + Bodies(es)[1..];
    ReadConcat(Fresh, [first], Bodies(es)[1..]);
    ReadOne(Fresh, first);
    RejectedStays(Bodies(es)[1..]);
  }

  lemma {:induction false} RejectedStays(bs: seq<Body>)
    ensures ReadAll(Rejected, bs) == Rejected
  {
    if bs != [] {
      RejectedStays(bs[..|bs| - 1]);
    }
  }

  /** For every upstream stream fed at least once, a strict client accepts the whole answer and ends with
      exactly the upstream's items in index order; a stream never fed is rejected. */
  lemma StreamConveysTheUpstream(d: Dialect, ps: seq<Payload>)
    ensures ReadAll(Fresh, Bodies(Stream(d, ps))) ==
            if ps == [] then Rejected else Closed(FinalStatus(FinishOf(d, ps)), ExpectedOutput(d, ps))
  {
    var r := Fed(d, ps);
    FeedsInform(d, ps);
    ReadBatch(Fresh, r.out, AfterFinalize(r.state).out);
    if ps == [] {
      UnfedIsRejected();
    } else {
      var client := ReadAll(Fresh, Bodies(r.out));
      FinalizeShown(r.state, EventsOf(ps), client);
      FinalItems(d, ps, r.state, client);
    }
  }

  // ---------- sequence numbers ----------

  function SeqNos(es: seq<Event>): (ns: seq<nat>)
    ensures |ns| == |es|
  {
    seq(|es|, i requires 0 <= i < |es| => es[i].seqNo)
  }

  function Range(a: nat, n: nat): (ns: seq<nat>)
    ensures |ns| == n
  {
    seq(n, i requires 0 <= i < n => a + i)
  }

  lemma RangeJoins(a: nat, n: nat, m: nat)
    ensures Range(a, n) + Range(a + n, m) == Range(a, n + m)
  {
  }

  /** A step numbers its events consecutively from the state's counter. */
  predicate Counts(s: State, r: Result) {
    SeqNos(r.out) == Range(s.seqNo, |r.out|) && r.state.seqNo == s.seqNo + |r.out|
  }

  lemma CountsJoin(s: State, r: Result, r': Result)
    requires Counts(s, r) && Counts(r.state, r')
    ensures Counts(s, Result(r'.state, r.out + r'.out))
  {
    assert SeqNos(r.out + r'.out) == SeqNos(r.out) + SeqNos(r'.out);
    RangeJoins(s.seqNo, |r.out|, |r'.out|);
  }

  lemma {:induction false} ToolsCount(s: State, evs: seq<ToolEvent>)
    requires ValidKeys(s)
    ensures Counts(s, AfterTools(s, evs))
  {
    if evs != [] {
      var init := evs[..|evs| - 1];
      ToolsCount(s, init);
      CountsJoin(s, AfterTools(s, init), AfterTool(AfterTools(s, init).state, evs[|evs| - 1]));
    }
  }

  lemma DrainCounts(s: State, announcePart: bool)
    ensures Counts(s, AfterDrain(s, announcePart))
  {
  }

  lemma FeedCounts(d: Dialect, s: State, p: Payload)
    requires ValidKeys(s)
    ensures Counts(s, AfterFeed(d, s, p))
  {
    var s0 := s.(text := s.text + TextOf(d, p), finish := FinishAfter(d, s.finish, p));
    var r0 := AfterStart(s0);
    var r1 := AfterTools(r0.state, ToolEvents(p));
    ToolsCount(r0.state, ToolEvents(p));
    CountsJoin(s0, r0, r1);
    DrainCounts(r1.state, true);
    CountsJoin(s0, Result(r1.state, r0.out + r1.out), AfterDrain(r1.state, true));
  }

  lemma {:induction false} FeedsCount(d: Dialect, ps: seq<Payload>)
    ensures Counts(INITIAL, Fed(d, ps))
  {
    if ps != [] {
      var r := Fed(d, ps[..|ps| - 1]);
      FeedsCount(d, ps[..|ps| - 1]);
      FeedCounts(d, r.state, ps[|ps| - 1]);
      CountsJoin(INITIAL, r, AfterFeed(d, r.state, ps[|ps| - 1]));
    }
  }

  lemma {:induction false} FlattenConcat(a: seq<Closer>, b: seq<Closer>)
    ensures Flatten(a + b) == Flatten(a) + Flatten(b)
  {
    if b == [] {
      assert a + b == a;
    } else {
      assert (a + b)[..|a + b| - 1] == a + b[..|b| - 1];
      FlattenConcat(a, b[..|b| - 1]);
    }
  }

  lemma TwoNumbers(es: seq<Event>, from: nat)
    requires |es| == 2 && es[0].seqNo == from && es[1].seqNo == from + 1
    ensures SeqNos(es) == Range(from, 2)
  {
  }

  lemma OneMoreCloser(cs: seq<Closer>, c: Closer, from: nat, n: nat)
    requires SeqNos(Flatten(cs)) == Range(from, n)
    requires |c.evs| == 2 && c.evs[0].seqNo == from + n && c.evs[1].seqNo == from + n + 1
    ensures SeqNos(Flatten(cs + [c])) == Range(from, n + 2)
  {
    assert (cs + [c])[..|cs|] == cs;
    SeqNosConcat(Flatten(cs), c.evs);
    TwoNumbers(c.evs, from + n);
    RangeJoins(from, n, 2);
  }

  lemma {:induction false} CallClosersCount(seqNo: nat, calls: seq<FunctionCall>)
    ensures SeqNos(Flatten(CallClosers(seqNo, calls))) == Range(seqNo, 2 * |calls|)
  {
    hide Flatten, SeqNos, Range;
    if calls == [] {
      NothingCounts(seqNo);
    } else {
      var n := |calls| - 1;
      var fc := calls[n];
      CallClosersCount(seqNo, calls[..n]);
      OneMoreCloser(CallClosers(seqNo, calls[..n]),
                    Closer(fc.outIndex, [Event(seqNo + 2 * n, CallClosing(fc)[0]), Event(seqNo + 2 * n + 1, CallClosing(fc)[1])]),
                    seqNo, 2 * n);
    }
  }

  lemma NothingCounts(seqNo: nat)
    ensures SeqNos(Flatten([])) == Range(seqNo, 0)
  {
  }

  lemma SeqNosConcat(a: seq<Event>, b: seq<Event>)
    ensures SeqNos(a + b) == SeqNos(a) + SeqNos(b)
  {
  }

  lemma MessageCloserCounts(s: State)
    requires s.msgAdded
    ensures SeqNos(Flatten(MessageClosers(s))) == Range(s.seqNo, |MessageClosing(s)|)
  {
    FlattenOne(MessageClosers(s)[0]);
    NumberedCounts(s.seqNo, MessageClosing(s));
  }

  lemma FlattenOne(c: Closer)
    ensures Flatten([c]) == c.evs
  {
    assert Flatten([c]) == Flatten([]) + c.evs;
  }

  lemma NumberedCounts(seqNo: nat, bodies: seq<Body>)
    ensures SeqNos(Numbered(seqNo, bodies)) == Range(seqNo, |bodies|)
  {
  }

  /** Numbers of the closing events as sent: message after the first `p` calls. */
  lemma FlattenSplit(a: seq<Closer>, m: seq<Closer>, c: seq<Closer>)
    ensures SeqNos(Flatten(a + m + c)) == SeqNos(Flatten(a)) + SeqNos(Flatten(m)) + SeqNos(Flatten(c))
  {
    FlattenConcat(a + m, c);
    FlattenConcat(a, m);
    SeqNosConcat(Flatten(a) + Flatten(m), Flatten(c));
    SeqNosConcat(Flatten(a), Flatten(m));
  }

  /** The numbers from `from` on, each once. */
  predicate UsedOnce(ns: seq<nat>, from: nat) {
    multiset(ns) == multiset(Range(from, |ns|))
  }

  predicate InOrder(ns: seq<nat>, from: nat) {
    ns == Range(from, |ns|)
  }

  /** Numbers in order followed by a block of numbers: only the block's order matters. */
  lemma InOrderThen(a: seq<nat>, b: seq<nat>, from: nat)
    requires InOrder(a, from) && UsedOnce(b, from + |a|)
    ensures UsedOnce(a + b, from)
    ensures InOrder(a + b, from) <==> InOrder(b, from + |a|)
  {
    RangeJoins(from, |a|, |b|);
    if !InOrder(b, from + |a|) {
      var i :| 0 <= i < |b| && b[i] != Range(from + |a|, |b|)[i];
      assert (a + b)[|a| + i] == b[i];
    }
  }

  lemma ThenInOrder(a: seq<nat>, b: seq<nat>, from: nat)
    requires UsedOnce(a, from) && InOrder(b, from + |a|)
    ensures UsedOnce(a + b, from)
    ensures InOrder(a + b, from) <==> InOrder(a, from)
  {
    RangeJoins(from, |a|, |b|);
    if !InOrder(a, from) {
      var i :| 0 <= i < |a| && a[i] != Range(from, |a|)[i];
      assert (a + b)[i] == a[i];
    }
  }

  lemma Shuffled(from: nat, a: seq<nat>, b: seq<nat>, c: seq<nat>)
    requires InOrder(b, from) && b != []
    requires InOrder(a + c, from + |b|)
    ensures UsedOnce(a + b + c, from)
    ensures InOrder(a + b + c, from) <==> a == []
  {
    RangeJoins(from, |b|, |a + c|);
    assert multiset(a + b + c) == multiset(b + (a + c));
    if a == [] {
      assert a + b + c == b + (a + c);
    } else {
      assert (a + b + c)[0] == (a + c)[0] == from + |b|;
    }
  }

  lemma {:induction false} CallClosersPrefix(seqNo: nat, calls: seq<FunctionCall>, p: nat)
    requires p <= |calls|
    ensures CallClosers(seqNo, calls)[..p] == CallClosers(seqNo, calls[..p])
  {
    if p == |calls| {
      assert calls[..p] == calls;
    } else {
      CallClosersPrefix(seqNo, calls[..|calls| - 1], p);
      assert calls[..|calls| - 1][..p] == calls[..p];
    }
  }

  lemma CallClosersSplit(seqNo: nat, calls: seq<FunctionCall>, p: nat)
    requires p <= |calls|
    ensures var a, c := CallClosers(seqNo, calls)[..p], CallClosers(seqNo, calls)[p..];
            InOrder(SeqNos(Flatten(a)) + SeqNos(Flatten(c)), seqNo) &&
            |SeqNos(Flatten(a))| == 2 * p && |SeqNos(Flatten(a)) + SeqNos(Flatten(c))| == 2 * |calls|
  {
    var cs := CallClosers(seqNo, calls);
    assert cs[..p] + cs[p..] == cs;
    FlattenConcat(cs[..p], cs[p..]);
    SeqNosConcat(Flatten(cs[..p]), Flatten(cs[p..]));
    CallClosersCount(seqNo, calls);
    CallClosersPrefix(seqNo, calls, p);
    CallClosersCount(seqNo, calls[..p]);
  }

  lemma SplitCounts(seqNo: nat, m: seq<Closer>, n: nat, calls: seq<FunctionCall>, p: nat)
    requires p <= |calls| && n > 0 && SeqNos(Flatten(m)) == Range(seqNo, n)
    ensures var cs := CallClosers(seqNo + n, calls);
            var ns := SeqNos(Flatten(cs[..p] + m + cs[p..]));
            |ns| == n + 2 * |calls| && UsedOnce(ns, seqNo) && (InOrder(ns, seqNo) <==> p == 0)
  {
    hide CallClosers, Flatten, SeqNos, UsedOnce;
    var a, c := CallClosers(seqNo + n, calls)[..p], CallClosers(seqNo + n, calls)[p..];
    CallClosersSplit(seqNo + n, calls, p);
    FlattenSplit(a, m, c);
    Shuffled(seqNo, SeqNos(Flatten(a)), SeqNos(Flatten(m)), SeqNos(Flatten(c)));
  }

  lemma NotEmpty(s: State)
    ensures |MessageClosing(s)| > 0
  {
  }

  lemma ClosersCountWithMessage(s: State)
    requires Closable(s) && s.msgAdded
    ensures var ns := SeqNos(Flatten(ClosersOf(s)));
            && |ns| == |MessageClosing(s)| + 2 * |s.calls|
            && UsedOnce(ns, s.seqNo) && (InOrder(ns, s.seqNo) <==> s.msgOut == 0)
  {
    hide Flatten, SeqNos, UsedOnce, InOrder, CallClosers, MessageClosing, ClosersOf;
    ClosersSplit(s);
    MessageCloserCounts(s);
    NotEmpty(s);
    SplitCounts(s.seqNo, MessageClosers(s), |MessageClosing(s)|, s.calls, s.msgOut);
  }

  /** The closing events use a block of numbers once each, in order unless calls come before the message. */
  lemma ClosersCount(s: State)
    requires Closable(s)
    ensures var ns := SeqNos(Flatten(ClosersOf(s)));
            && s.seqNo + |ns| == CallsFrom(s) + 2 * |s.calls|
            && UsedOnce(ns, s.seqNo) && (InOrder(ns, s.seqNo) <==> !(s.msgAdded && s.msgOut > 0))
  {
    if s.msgAdded {
      ClosersCountWithMessage(s);
    } else {
      ClosersSplit(s);
      CallClosersCount(CallsFrom(s), s.calls);
    }
  }

  lemma ThenLast(closing: seq<Event>, last: seq<Event>, from: nat)
    requires UsedOnce(SeqNos(closing), from) && |last| == 1 && last[0].seqNo == from + |closing|
    ensures UsedOnce(SeqNos(closing + last), from)
    ensures InOrder(SeqNos(closing + last), from) <==> InOrder(SeqNos(closing), from)
  {
    SeqNosConcat(closing, last);
    ThenInOrder(SeqNos(closing), SeqNos(last), from);
  }

  lemma CloseCounts(s: State)
    requires Closable(s)
    ensures UsedOnce(SeqNos(AfterClose(s).out), s.seqNo)
    ensures InOrder(SeqNos(AfterClose(s).out), s.seqNo) <==> !(s.msgAdded && s.msgOut > 0)
  {
    hide ClosersOf, Flatten, SeqNos, UsedOnce, InOrder, OutputOf, CallsFrom;
    ClosersCount(s);
    ThenLast(Flatten(ClosersOf(s)), AfterTerminal(s.(seqNo := CallsFrom(s) + 2 * |s.calls|), ClosersOf(s)).out, s.seqNo);
  }

  lemma FinalizeCounts(s: State)
    requires s.emitted == |s.text| && Closable(AfterEnsureItem(s).state)
    ensures var s', ns := AfterEnsureItem(s).state, SeqNos(AfterFinalize(s).out);
            UsedOnce(ns, s.seqNo) && (InOrder(ns, s.seqNo) <==> !(s'.msgAdded && s'.msgOut > 0))
  {
    FinalizeOut(s);
    var r := AfterEnsureItem(s);
    CloseCounts(r.state);
    Join(s, r, AfterClose(r.state).out);
  }

  lemma FinalizeOut(s: State)
    requires s.emitted == |s.text|
    ensures AfterFinalize(s).out == AfterEnsureItem(s).out + AfterClose(AfterEnsureItem(s).state).out
  {
  }

  lemma Join(s: State, r: Result, more: seq<Event>)
    requires Counts(s, r) && UsedOnce(SeqNos(more), r.state.seqNo)
    ensures UsedOnce(SeqNos(r.out + more), s.seqNo)
    ensures InOrder(SeqNos(r.out + more), s.seqNo) <==> InOrder(SeqNos(more), r.state.seqNo)
  {
    SeqNosConcat(r.out, more);
    InOrderThen(SeqNos(r.out), SeqNos(more), s.seqNo);
  }

  /** Where the message item ends up, whether or not anything was fed. */
  lemma MessagePlace(d: Dialect, ps: seq<Payload>)
    ensures var s := Fed(d, ps).state;
            var s' := AfterEnsureItem(s).state;
            && s.emitted == |s.text| && Closable(s')
            && (s'.msgAdded && s'.msgOut > 0 <==> CallsBeforeText(d, ps).Some? && CallsBeforeText(d, ps).value > 0)
  {
    FeedsInform(d, ps);
    if ps != [] {
      EnsureItemShown(Fed(d, ps).state, EventsOf(ps), ReadAll(Fresh, Bodies(Fed(d, ps).out)));
    }
  }

  /** Over a whole stream the sequence numbers 0, 1, ..., n-1 are used once each, and events are sent in
      the order of their numbers exactly when no call is announced before the first text. */
  lemma NumbersAreUsedOnce(d: Dialect, ps: seq<Payload>)
    ensures UsedOnce(SeqNos(Stream(d, ps)), 0)
    ensures InOrder(SeqNos(Stream(d, ps)), 0) <==> !(CallsBeforeText(d, ps).Some? && CallsBeforeText(d, ps).value > 0)
  {
    var r := Fed(d, ps);
    FeedsCount(d, ps);
    MessagePlace(d, ps);
    FinalizeCounts(r.state);
    Join(INITIAL, r, AfterFinalize(r.state).out);
  }

  /** A chat chunk that announces a call, and one with text. */
  const CALL_CHUNK := Chunk("", None, "", None, None, NoDelta, [Choice("", [ToolCallDelta(Some(0), "a", "f", "")], "")], None, None, None)
  const TEXT_CHUNK := Chunk("", None, "", None, None, NoDelta, [Choice("hi", [], "")], None, None, None)

  lemma CallThenTextSay()
    ensures ToolEvents(CALL_CHUNK) == [Start("0", "a", "f")] && TextOf(OpenAI, CALL_CHUNK) == "" && TextOf(OpenAI, TEXT_CHUNK) == "hi"
    ensures ToolEvents(TEXT_CHUNK) == []
  {
    var tcs := [ToolCallDelta(Some(0), "a", "f", "")];
    assert FormatNat(0) == "0";
    assert tcs[..0] == [] && CallsEvents(tcs) == [Start("0", "a", "f")];
    assert CALL_CHUNK.choices[..0] == [] && TEXT_CHUNK.choices[..0] == [];
    assert ChoicesEvents(CALL_CHUNK.choices) == [Start("0", "a", "f")];
    assert ChoicesEvents(TEXT_CHUNK.choices) == [];
    assert ContentOf(CALL_CHUNK.choices) == "" && ContentOf(TEXT_CHUNK.choices) == "hi";
  }

  /** Such a stream exists: a call and then text. */
  lemma TextAfterACallIsOutOfOrder()
    ensures !InOrder(SeqNos(Stream(OpenAI, [CALL_CHUNK, TEXT_CHUNK])), 0)
  {
    hide InOrder, SeqNos, Stream, TextOf, ToolEvents;
    CallThenTextSay();
    NumbersAreUsedOnce(OpenAI, [CALL_CHUNK, TEXT_CHUNK]);
    var start := Start("0", "a", "f");
    assert [CALL_CHUNK, TEXT_CHUNK][..1] == [CALL_CHUNK] && [CALL_CHUNK][..0] == [];
    assert EventsOf([CALL_CHUNK]) == [start];
    assert EventsOf([CALL_CHUNK, TEXT_CHUNK]) == [start];
    assert [] + [start] == [start];
    CallsAfterStart(Responses, [], start);
    assert CallsBeforeText(OpenAI, [CALL_CHUNK]) == None;
  }

  /** The streaming loop of the executor: every payload is fed, then the converter is finalized. */
  method Convert(up: Dialect, payloads: seq<Payload>) returns (out: seq<Event>)
    ensures out == Stream(up, payloads)
  {
    var converter := new ResponsesEventConverter(up);
    out := [];
    for i := 0 to |payloads|
      invariant converter.parser.dialect == up && fresh(converter) && fresh(converter.parser)
      invariant Result(converter.Contents(), out) == Fed(up, payloads[..i])
    {
      assert payloads[..i + 1][..i] == payloads[..i];
      var events := converter.Feed(payloads[i]);
      out := out + events;
    }
    assert payloads[..|payloads|] == payloads;
    var done := converter.Finalize();
    out := out + done;
  }
}
