/** Chat and messages requests, read into and written from one intermediate conversation. */
module Convert {
  import opened Common
  import opened Upstream

  /** A decoded JSON value; equal objects have equal fields, whatever order they were written in. */
  datatype Value =
    | Null
    | Bool(b: bool)
    | Number(n: real)
    | Str(s: string)
    | Array(items: seq<Value>)
    | Object(fields: map<string, Value>)

  /** JSON text: absent, what the encoder prints for a value, another spelling of it, or no JSON at all. */
  datatype JsonText = Absent | Printed(value: Value) | Spelled(value: Value, text: string) | Malformed(text: string)

  // ---------- the intermediate form ----------

  datatype Role = User | Assistant | ToolRole

  datatype ToolCall = ToolCall(id: string, name: string, arguments: JsonText)

  datatype Message = Message(role: Role, text: string, toolCalls: seq<ToolCall>, toolCallId: string)

  datatype Conversation = Conversation(system: string, messages: seq<Message>)

  datatype ToolDef = ToolDef(name: string, description: string, parameters: Option<Value>)

  datatype ToolChoice = Unset | Auto | NoTools | Required | AnyTool | Function(name: string)

  datatype Params = Params(maxTokens: int, temperature: Option<real>, topP: Option<real>, stop: seq<string>, stream: bool,
                           tools: seq<ToolDef>, toolChoice: ToolChoice)

  // ---------- requests ----------

  datatype Part = Part(kind: string, text: string)

  /** Message content: nothing or null, a string, a list of parts, or anything else. */
  datatype Content = NoContent | Text(text: string) | Parts(parts: seq<Part>) | OtherContent

  datatype WireCall = WireCall(id: string, name: string, arguments: JsonText)

  datatype ChatMessage = ChatMessage(role: string, content: Content, toolCalls: seq<WireCall>, toolCallId: string)

  datatype StopField = NoStop | NullStop | OneStop(s: string) | Stops(all: seq<string>) | OtherStop

  /** A string, an object naming a function either way, an object with a mode, or anything else. */
  datatype ChoiceField = NoChoice | ModeName(mode: string) | ChoiceObject(kind: string, name: string, functionName: string) | OtherChoice

  datatype ChatRequest = ChatRequest(messages: seq<ChatMessage>, maxTokens: Option<int>, temperature: Option<real>, topP: Option<real>,
                                     stop: StopField, stream: bool, tools: seq<ToolDef>, toolChoice: ChoiceField)

  datatype Block =
    | TextBlock(text: string)
    | ToolUse(id: string, name: string, input: JsonText)
    | ToolResult(toolUseId: string, content: Content)
    | OtherBlock

  datatype BlockContent = PlainText(text: string) | Blocks(blocks: seq<Block>) | BadContent

  datatype TurnMessage = TurnMessage(role: string, content: BlockContent)

  datatype MessagesRequest = MessagesRequest(system: Content, messages: seq<TurnMessage>, maxTokens: int, temperature: Option<real>,
                                             topP: Option<real>, stop: seq<string>, stream: bool, tools: seq<ToolDef>,
                                             toolChoice: Option<(string, string)>)

  // ---------- reading ----------

  /** The texts of the parts, one per line; empty ones are left out. */
  function JoinParts(parts: seq<Part>): string {
    if parts == [] then ""
    else
      var before, p := JoinParts(parts[..|parts| - 1]), parts[|parts| - 1];
      if p.text == "" then before else if before == "" then p.text else before + "\n" + p.text
  }

  function ContentToText(c: Content): string {
    match c
    case Text(s) => s
    case Parts(parts) => JoinParts(parts)
    case _ => ""
  }

  function ArgsFromRaw(raw: JsonText): JsonText {
    if raw == Printed(Null) then Absent else raw
  }

  function AddSystem(system: string, text: string): string {
    if system == "" then text else system + "\n" + text
  }

  function ReadCalls(calls: seq<WireCall>): seq<ToolCall> {
    if calls == [] then []
    else
      var c := calls[|calls| - 1];
      ReadCalls(calls[..|calls| - 1]) + if c.id == "" && c.name == "" then [] else [ToolCall(c.id, c.name, c.arguments)]
  }

  predicate IsSystem(m: ChatMessage) {
    m.role == "system" || m.role == "developer"
  }

  function ReadChatMessage(m: ChatMessage): seq<Message> {
    var text := ContentToText(m.content);
    if IsSystem(m) then []
    else if m.role == "assistant" then
      var calls := ReadCalls(m.toolCalls);
      if text == "" && calls == [] then [] else [Message(Assistant, text, calls, "")]
    else if m.role == "tool" then if m.toolCallId == "" then [] else [Message(ToolRole, text, [], m.toolCallId)]
    else if m.role == "function" && text == "" then []
    else [Message(User, text, [], "")]
  }

  function ReadChatMessages(ms: seq<ChatMessage>): seq<Message> {
    if ms == [] then [] else ReadChatMessage(ms[0]) + ReadChatMessages(ms[1..])
  }

  function SystemText(ms: seq<ChatMessage>): string {
    if ms == [] then ""
    else
      var before, m := SystemText(ms[..|ms| - 1]), ms[|ms| - 1];
      if IsSystem(m) then AddSystem(before, ContentToText(m.content)) else before
  }

  function NamedTools(tools: seq<ToolDef>): seq<ToolDef> {
    if tools == [] then []
    else NamedTools(tools[..|tools| - 1]) + if tools[|tools| - 1].name == "" then [] else [tools[|tools| - 1]]
  }

  function ModeOf(mode: string): ToolChoice {
    if mode == "auto" then Auto else if mode == "none" then NoTools
    else if mode == "required" then Required else if mode == "any" then AnyTool else Unset
  }

  function ReadToolChoice(c: ChoiceField): ToolChoice {
    match c
    case ModeName(mode) => ModeOf(mode)
    case ChoiceObject(kind, name, functionName) =>
      if kind == "function" then Function(if name == "" then functionName else name) else ModeOf(kind)
    case _ => Unset
  }

  /** A null is read like an empty string. */
  function ReadStop(s: StopField): seq<string> {
    match s
    case NullStop => [""]
    case OneStop(one) => [one]
    case Stops(all) => all
    case _ => []
  }

  function ReadChat(q: ChatRequest): (Conversation, Params) {
    (Conversation(SystemText(q.messages), ReadChatMessages(q.messages)),
     Params(if q.maxTokens.Some? then q.maxTokens.value else 0, q.temperature, q.topP, ReadStop(q.stop), q.stream,
            NamedTools(q.tools), ReadToolChoice(q.toolChoice)))
  }

  /** The text, calls and results of one turn's blocks. */
  datatype Turn = Turn(text: string, calls: seq<ToolCall>, results: seq<Message>)

  function WithBlock(t: Turn, b: Block): Turn {
    match b
    case TextBlock(text) => t.(text := if t.text == "" then text else t.text + "\n" + text)
    case ToolUse(id, name, input) =>
      if id == "" && name == "" then t else t.(calls := t.calls + [ToolCall(id, name, ArgsFromRaw(input))])
    case ToolResult(id, content) =>
      if id == "" then t else t.(results := t.results + [Message(ToolRole, ContentToText(content), [], id)])
    case OtherBlock => t
  }

  function ReadBlocks(blocks: seq<Block>): Turn {
    if blocks == [] then Turn("", [], []) else WithBlock(ReadBlocks(blocks[..|blocks| - 1]), blocks[|blocks| - 1])
  }

  /** Results go before the turn's text; an assistant turn's results and a user turn's calls are ignored. */
  function TurnMessages(assistant: bool, t: Turn): seq<Message> {
    if assistant then if t.text == "" && t.calls == [] then [] else [Message(Assistant, t.text, t.calls, "")]
    else t.results + if t.text == "" then [] else [Message(User, t.text, [], "")]
  }

  function ReadTurn(m: TurnMessage): seq<Message> {
    match m.content
    case PlainText(text) => TurnMessages(m.role == "assistant", Turn(text, [], []))
    case Blocks(blocks) => TurnMessages(m.role == "assistant", ReadBlocks(blocks))
    case BadContent => []
  }

  function ReadTurns(ms: seq<TurnMessage>): seq<Message> {
    if ms == [] then [] else ReadTurn(ms[0]) + ReadTurns(ms[1..])
  }

  function ReadMessagesChoice(c: Option<(string, string)>): ToolChoice {
    match c
    case None => Unset
    case Some((kind, name)) =>
      if kind == "auto" then Auto else if kind == "none" then NoTools
      else if kind == "any" then Required else if kind == "tool" then Function(name) else Unset
  }

  function ReadMessages(q: MessagesRequest): (Conversation, Params) {
    (Conversation(ContentToText(q.system), ReadTurns(q.messages)),
     Params(q.maxTokens, q.temperature, q.topP, q.stop, q.stream, NamedTools(q.tools), ReadMessagesChoice(q.toolChoice)))
  }

  // ---------- writing ----------

  function WriteCalls(calls: seq<ToolCall>): seq<WireCall> {
    if calls == [] then []
    else
      var n := |calls| - 1;
      WriteCalls(calls[..n]) +
      [WireCall(if calls[n].id == "" then "call_" + FormatNat(n + 1) else calls[n].id, calls[n].name, calls[n].arguments)]
  }

  function WriteChatMessage(m: Message): ChatMessage {
    match m.role
    case ToolRole => ChatMessage("tool", Text(m.text), [], m.toolCallId)
    case Assistant => ChatMessage("assistant", if m.text == "" then NoContent else Text(m.text), WriteCalls(m.toolCalls), "")
    case User => ChatMessage("user", Text(m.text), [], "")
  }

  function WriteChatMessages(ms: seq<Message>): seq<ChatMessage> {
    if ms == [] then [] else [WriteChatMessage(ms[0])] + WriteChatMessages(ms[1..])
  }

  function WriteChoice(c: ToolChoice): ChoiceField {
    match c
    case Auto => ModeName("auto")
    case NoTools => ModeName("none")
    case Required => ModeName("required")
    case Function(name) => ChoiceObject("function", "", name)
    case _ => NoChoice
  }

  function WriteStop(stop: seq<string>): StopField {
    if stop == [] then NoStop else if |stop| == 1 then OneStop(stop[0]) else Stops(stop)
  }

  /** A schema of null is left out like an absent one. */
  predicate HasSchema(t: ToolDef) {
    t.parameters.Some? && t.parameters.value != Null
  }

  function WithoutNulls(tools: seq<ToolDef>): (r: seq<ToolDef>)
    ensures |r| == |tools|
    ensures forall i :: 0 <= i < |tools| ==> r[i] == if HasSchema(tools[i]) then tools[i] else tools[i].(parameters := None)
  {
    seq(|tools|, i requires 0 <= i < |tools| => if HasSchema(tools[i]) then tools[i] else tools[i].(parameters := None))
  }

  function WriteChat(c: Conversation, p: Params): ChatRequest {
    ChatRequest((if c.system == "" then [] else [ChatMessage("system", Text(c.system), [], "")]) + WriteChatMessages(c.messages),
                if p.maxTokens > 0 then Some(p.maxTokens) else None, p.temperature, p.topP,
                WriteStop(p.stop), p.stream, WithoutNulls(p.tools), WriteChoice(p.toolChoice))
  }

  /** The object an argument text stands for; whatever is not JSON, or null, becomes an empty object. */
  function ParseJsonObject(text: JsonText): Value {
    match text
    case Printed(v) => if v == Null then Object(map[]) else v
    case Spelled(v, _) => if v == Null then Object(map[]) else v
    case _ => Object(map[])
  }

  function WriteUses(calls: seq<ToolCall>): seq<Block> {
    if calls == [] then []
    else
      var n := |calls| - 1;
      WriteUses(calls[..n]) +
      [ToolUse(if calls[n].id == "" then "toolu_" + FormatNat(n + 1) else calls[n].id, calls[n].name,
               Printed(ParseJsonObject(calls[n].arguments)))]
  }

  function WriteResults(ms: seq<Message>): seq<Block> {
    if ms == [] then []
    else WriteResults(ms[..|ms| - 1]) + [ToolResult(ms[|ms| - 1].toolCallId, Text(ms[|ms| - 1].text))]
  }

  /** How many messages from the front on are tool results. */
  function RunLength(ms: seq<Message>): (n: nat)
    ensures n <= |ms|
    ensures forall i :: 0 <= i < n ==> ms[i].role == ToolRole
    ensures n < |ms| ==> ms[n].role != ToolRole
  {
    if ms == [] || ms[0].role != ToolRole then 0 else 1 + RunLength(ms[1..])
  }

  function WriteTurn(m: Message): TurnMessage {
    if m.role == Assistant
    then TurnMessage("assistant", Blocks((if m.text == "" then [] else [TextBlock(m.text)]) + WriteUses(m.toolCalls)))
    else TurnMessage("user", Blocks([TextBlock(m.text)]))
  }

  /** A run of tool results is one user message. */
  function WriteTurns(ms: seq<Message>): seq<TurnMessage>
    decreases |ms|
  {
    if ms == [] then []
    else if ms[0].role == ToolRole then
      var n := RunLength(ms);
      [TurnMessage("user", Blocks(WriteResults(ms[..n])))] + WriteTurns(ms[n..])
    else [WriteTurn(ms[0])] + WriteTurns(ms[1..])
  }

  const EMPTY_SCHEMA := Object(map["type" := Str("object")])

  /** The messages protocol needs a schema, so an absent or null one becomes the empty one. */
  function WithSchemas(tools: seq<ToolDef>): (r: seq<ToolDef>)
    ensures |r| == |tools|
    ensures forall i :: 0 <= i < |tools| ==>
              r[i] == if HasSchema(tools[i]) then tools[i] else tools[i].(parameters := Some(EMPTY_SCHEMA))
  {
    seq(|tools|, i requires 0 <= i < |tools| => if HasSchema(tools[i]) then tools[i] else tools[i].(parameters := Some(EMPTY_SCHEMA)))
  }

  function WriteMessagesChoice(c: ToolChoice): Option<(string, string)> {
    match c
    case Auto => Some(("auto", ""))
    case NoTools => Some(("none", ""))
    case Required => Some(("any", ""))
    case Function(name) => Some(("tool", name))
    case _ => None
  }

  function WriteMessages(c: Conversation, p: Params): MessagesRequest {
    MessagesRequest(if c.system == "" then NoContent else Text(c.system), WriteTurns(c.messages),
                    if p.maxTokens <= 0 then 1024 else p.maxTokens, p.temperature, p.topP, p.stop, p.stream,
                    WithSchemas(p.tools), WriteMessagesChoice(p.toolChoice))
  }

  // ---------- which messages survive ----------

  /** Every call has an id. */
  predicate AllIds(calls: seq<ToolCall>) {
    forall i :: 0 <= i < |calls| ==> calls[i].id != ""
  }

  /** Every call's arguments are the printed form of a value other than null. */
  predicate AllPrinted(calls: seq<ToolCall>) {
    forall i :: 0 <= i < |calls| ==> calls[i].arguments.Printed? && calls[i].arguments.value != Null
  }

  /** A message has the fields of its role and only those. */
  predicate FitsRole(m: Message) {
    (m.role != Assistant ==> m.toolCalls == []) && (m.role != ToolRole ==> m.toolCallId == "")
  }

  predicate NormalForChat(m: Message) {
    && FitsRole(m)
    && (m.role == ToolRole ==> m.toolCallId != "")
    && (m.role == Assistant ==> (m.text != "" || m.toolCalls != []) && AllIds(m.toolCalls))
  }

  predicate NormalForMessages(m: Message) {
    && NormalForChat(m)
    && (m.role == User ==> m.text != "")
    && (m.role == Assistant ==> AllPrinted(m.toolCalls))
  }

  function ChatForm(m: Message): seq<Message> {
    ReadChatMessage(WriteChatMessage(m))
  }

  function TurnForm(m: Message): seq<Message> {
    if m.role == ToolRole then ReadTurn(TurnMessage("user", Blocks(WriteResults([m])))) else ReadTurn(WriteTurn(m))
  }

  function Flat(f: Message -> seq<Message>, ms: seq<Message>): seq<Message> {
    if ms == [] then [] else f(ms[0]) + Flat(f, ms[1..])
  }

  lemma {:induction false} FlatShrinks(f: Message -> seq<Message>, ms: seq<Message>)
    requires forall m :: |f(m)| <= 1
    ensures |Flat(f, ms)| <= |ms|
  {
    if ms != [] {
      FlatShrinks(f, ms[1..]);
    }
  }

  lemma {:induction false} FlatIdentity(f: Message -> seq<Message>, ms: seq<Message>)
    requires forall m :: |f(m)| <= 1
    ensures Flat(f, ms) == ms <==> forall i :: 0 <= i < |ms| ==> f(ms[i]) == [ms[i]]
  {
    if ms != [] {
      var rest := ms[1..];
      FlatIdentity(f, rest);
      FlatShrinks(f, rest);
      assert ms == [ms[0]] + rest;
      assert forall i :: 0 <= i < |rest| ==> rest[i] == ms[i + 1];
      assert forall i :: 0 < i < |ms| ==> ms[i] == rest[i - 1];
      if Flat(f, ms) == ms {
        assert f(ms[0]) != [];
        assert Flat(f, ms)[1..] == Flat(f, rest);
      }
    }
  }

  lemma {:induction false} RereadCalls(calls: seq<ToolCall>)
    ensures |ReadCalls(WriteCalls(calls))| == |calls| == |WriteCalls(calls)|
    ensures ReadCalls(WriteCalls(calls)) == calls <==> AllIds(calls)
  {
    if calls != [] {
      var n := |calls| - 1;
      var init, c := calls[..n], calls[n];
      RereadCalls(init);
      var id := if c.id == "" then "call_" + FormatNat(n + 1) else c.id;
      assert id != "";
      ReadCallsSnoc(WriteCalls(init), WireCall(id, c.name, c.arguments));
      SnocIs(ReadCalls(WriteCalls(init)), ToolCall(id, c.name, c.arguments), calls);
      IdsSnoc(calls);
      CallIdShows(id, c);
    }
  }

  lemma CallIdShows(id: string, c: ToolCall)
    requires id != "" && (c.id != "" ==> id == c.id)
    ensures ToolCall(id, c.name, c.arguments) == c <==> c.id != ""
  {
  }

  lemma IdsSnoc(calls: seq<ToolCall>)
    requires calls != []
    ensures AllIds(calls) <==> AllIds(calls[..|calls| - 1]) && calls[|calls| - 1].id != ""
  {
  }

  lemma ReadCallsSnoc(calls: seq<WireCall>, c: WireCall)
    requires c.id != ""
    ensures ReadCalls(calls + [c]) == ReadCalls(calls) + [ToolCall(c.id, c.name, c.arguments)]
  {
    assert (calls + [c])[..|calls|] == calls;
  }

  /** What the chat writer wrote reads back as the same message exactly for normal ones. */
  lemma ChatFormIs(m: Message)
    ensures |ChatForm(m)| <= 1
    ensures ChatForm(m) == [m] <==> NormalForChat(m)
  {
    hide ReadCalls, WriteCalls;
    if m.role == Assistant {
      RereadCalls(m.toolCalls);
    }
  }

  lemma {:induction false} ReadUses(text: string, calls: seq<ToolCall>)
    ensures var t := ReadBlocks((if text == "" then [] else [TextBlock(text)]) + WriteUses(calls));
            && t.text == text && t.results == [] && |t.calls| == |calls|
            && (t.calls == calls <==> AllIds(calls) && AllPrinted(calls))
  {
    var first: seq<Block> := if text == "" then [] else [TextBlock(text)];
    if calls == [] {
      assert first + [] == first;
      assert ReadBlocks([]) == Turn("", [], []);
    } else {
      var n := |calls| - 1;
      var init, c := calls[..n], calls[n];
      ReadUses(text, init);
      var id := if c.id == "" then "toolu_" + FormatNat(n + 1) else c.id;
      assert id != "";
      var args := Printed(ParseJsonObject(c.arguments));
      assert first + (WriteUses(init) + [ToolUse(id, c.name, args)]) == first + WriteUses(init) + [ToolUse(id, c.name, args)];
      ReadBlocksSnoc(first + WriteUses(init), ToolUse(id, c.name, args));
      SnocIs(ReadBlocks(first + WriteUses(init)).calls, ToolCall(id, c.name, args), calls);
      IdsSnoc(calls);
      PrintedSnoc(calls);
      ArgumentsShow(c);
      CallShows(id, args, c);
    }
  }

  lemma CallShows(id: string, args: JsonText, c: ToolCall)
    requires id != "" && (c.id != "" ==> id == c.id)
    ensures ToolCall(id, c.name, args) == c <==> c.id != "" && args == c.arguments
  {
  }

  lemma PrintedSnoc(calls: seq<ToolCall>)
    requires calls != []
    ensures AllPrinted(calls) <==>
            AllPrinted(calls[..|calls| - 1]) && calls[|calls| - 1].arguments.Printed? && calls[|calls| - 1].arguments.value != Null
  {
  }

  lemma ArgumentsShow(c: ToolCall)
    ensures ParseJsonObject(c.arguments) != Null
    ensures Printed(ParseJsonObject(c.arguments)) == c.arguments <==> c.arguments.Printed? && c.arguments.value != Null
  {
  }

  lemma ReadBlocksSnoc(blocks: seq<Block>, b: Block)
    ensures ReadBlocks(blocks + [b]) == WithBlock(ReadBlocks(blocks), b)
  {
    assert (blocks + [b])[..|blocks|] == blocks;
  }

  lemma ReadOneBlock(b: Block)
    ensures ReadBlocks([b]) == WithBlock(Turn("", [], []), b)
  {
    assert [] + [b] == [b];
    ReadBlocksSnoc([], b);
  }

  /** What the messages writer wrote reads back as the same message exactly for normal ones. */
  lemma TurnFormIs(m: Message)
    ensures |TurnForm(m)| <= 1
    ensures TurnForm(m) == [m] <==> NormalForMessages(m)
  {
    hide ReadBlocks, WriteUses, AllIds, AllPrinted;
    match m.role
    case Assistant =>
      ReadUses(m.text, m.toolCalls);
      NoCallsAreFine();
    case User =>
      ReadOneBlock(TextBlock(m.text));
    case ToolRole =>
      assert WriteResults([m]) == [ToolResult(m.toolCallId, Text(m.text))];
      ReadOneBlock(ToolResult(m.toolCallId, Text(m.text)));
  }

  lemma NoCallsAreFine()
    ensures AllIds([]) && AllPrinted([])
  {
  }

  // ---------- whole conversations ----------

  lemma {:induction false} ChatFlat(ms: seq<Message>)
    ensures ReadChatMessages(WriteChatMessages(ms)) == Flat(ChatForm, ms)
  {
    if ms != [] {
      hide ReadChatMessage, WriteChatMessage;
      ChatFlat(ms[1..]);
      var m, rest := WriteChatMessage(ms[0]), WriteChatMessages(ms[1..]);
      assert ([m] + rest)[1..] == rest;
      ChatFormMeans(ms[0]);
    }
  }

  lemma ChatFormMeans(m: Message)
    ensures ChatForm(m) == ReadChatMessage(WriteChatMessage(m))
  {
  }

  lemma {:induction false} FlatConcat(f: Message -> seq<Message>, a: seq<Message>, b: seq<Message>)
    ensures Flat(f, a + b) == Flat(f, a) + Flat(f, b)
  {
    if a == [] {
      assert a + b == b;
    } else {
      assert (a + b)[1..] == a[1..] + b;
      FlatConcat(f, a[1..], b);
    }
  }

  lemma FlatOne(f: Message -> seq<Message>, m: Message)
    ensures Flat(f, [m]) == f(m)
  {
    assert Flat(f, []) == [];
  }

  /** A run's user message reads back as its messages, one after the other. */
  lemma {:induction false} ReadRun(ms: seq<Message>)
    requires forall i :: 0 <= i < |ms| ==> ms[i].role == ToolRole
    ensures var t := ReadBlocks(WriteResults(ms));
            t.text == "" && t.results == Flat(TurnForm, ms)
  {
    hide ReadBlocks, WriteResults, TurnForm, Flat;
    if ms == [] {
      ReadNothing();
    } else {
      var init, m := ms[..|ms| - 1], ms[|ms| - 1];
      ReadRun(init);
      ReadOneMoreResult(init, m);
      assert ms == init + [m];
      FlatConcat(TurnForm, init, [m]);
      FlatOne(TurnForm, m);
      TurnFormOfResult(m);
    }
  }

  lemma ReadNothing()
    ensures ReadBlocks(WriteResults([])) == Turn("", [], []) && Flat(TurnForm, []) == []
  {
  }

  lemma ReadOneMoreResult(ms: seq<Message>, m: Message)
    ensures var t, t' := ReadBlocks(WriteResults(ms)), ReadBlocks(WriteResults(ms + [m]));
            t'.text == t.text &&
            t'.results == t.results + if m.toolCallId == "" then [] else [Message(ToolRole, m.text, [], m.toolCallId)]
  {
    assert (ms + [m])[..|ms|] == ms;
    ReadBlocksSnoc(WriteResults(ms), ToolResult(m.toolCallId, Text(m.text)));
  }

  lemma TurnFormOfResult(m: Message)
    requires m.role == ToolRole
    ensures TurnForm(m) == if m.toolCallId == "" then [] else [Message(ToolRole, m.text, [], m.toolCallId)]
  {
    assert WriteResults([m]) == [ToolResult(m.toolCallId, Text(m.text))];
    ReadOneBlock(ToolResult(m.toolCallId, Text(m.text)));
  }

  lemma {:induction false} TurnsFlat(ms: seq<Message>)
    ensures ReadTurns(WriteTurns(ms)) == Flat(TurnForm, ms)
    decreases |ms|
  {
    hide ReadTurn, TurnForm, WriteTurn, WriteResults;
    if ms == [] {
    } else if ms[0].role == ToolRole {
      var n := RunLength(ms);
      TurnsFlat(ms[n..]);
      RunReads(ms[..n]);
      var m, rest := TurnMessage("user", Blocks(WriteResults(ms[..n]))), WriteTurns(ms[n..]);
      assert ([m] + rest)[1..] == rest;
      assert ms == ms[..n] + ms[n..];
      FlatConcat(TurnForm, ms[..n], ms[n..]);
    } else {
      TurnsFlat(ms[1..]);
      var m, rest := WriteTurn(ms[0]), WriteTurns(ms[1..]);
      assert ([m] + rest)[1..] == rest;
      TurnFormOfTurn(ms[0]);
    }
  }

  lemma RunReads(ms: seq<Message>)
    requires forall i :: 0 <= i < |ms| ==> ms[i].role == ToolRole
    ensures ReadTurn(TurnMessage("user", Blocks(WriteResults(ms)))) == Flat(TurnForm, ms)
  {
    hide WriteResults, TurnForm, ReadBlocks;
    ReadRun(ms);
    assert Flat(TurnForm, ms) + [] == Flat(TurnForm, ms);
  }

  lemma TurnFormOfTurn(m: Message)
    requires m.role != ToolRole
    ensures TurnForm(m) == ReadTurn(WriteTurn(m))
  {
  }

  lemma {:induction false} NoSystemWritten(ms: seq<Message>, i: nat)
    requires i < |WriteChatMessages(ms)|
    ensures !IsSystem(WriteChatMessages(ms)[i])
  {
    if i > 0 {
      NoSystemWritten(ms[1..], i - 1);
    }
  }

  lemma {:induction false} SystemOnlyFirst(first: seq<ChatMessage>, ms: seq<ChatMessage>)
    requires forall i :: 0 <= i < |ms| ==> !IsSystem(ms[i])
    ensures SystemText(first + ms) == SystemText(first)
  {
    if ms == [] {
      assert first + ms == first;
    } else {
      var init := ms[..|ms| - 1];
      assert (first + ms)[..|first + ms| - 1] == first + init;
      SystemOnlyFirst(first, init);
    }
  }

  lemma SystemReads(system: string, ms: seq<ChatMessage>)
    requires forall i :: 0 <= i < |ms| ==> !IsSystem(ms[i])
    ensures var head := if system == "" then [] else [ChatMessage("system", Text(system), [], "")];
            SystemText(head + ms) == system && ReadChatMessages(head + ms) == ReadChatMessages(ms)
  {
    var head := if system == "" then [] else [ChatMessage("system", Text(system), [], "")];
    SystemOnlyFirst(head, ms);
    if system == "" {
      assert head + ms == ms;
    } else {
      assert (head + ms)[1..] == ms;
      assert head == [] + [ChatMessage("system", Text(system), [], "")];
      assert SystemText([]) == "";
    }
  }

  /** For every conversation: what is read back is, in order, what each message reads back as. */
  lemma ChatConversationReads(c: Conversation, p: Params)
    ensures ReadChat(WriteChat(c, p)).0 == Conversation(c.system, Flat(ChatForm, c.messages))
  {
    hide SystemText, ReadChatMessages, WriteChatMessages;
    forall i | 0 <= i < |WriteChatMessages(c.messages)|
      ensures !IsSystem(WriteChatMessages(c.messages)[i])
    {
      NoSystemWritten(c.messages, i);
    }
    SystemReads(c.system, WriteChatMessages(c.messages));
    ChatFlat(c.messages);
  }

  lemma MessagesConversationReads(c: Conversation, p: Params)
    ensures ReadMessages(WriteMessages(c, p)).0 == Conversation(c.system, Flat(TurnForm, c.messages))
  {
    TurnsFlat(c.messages);
  }

  // ---------- parameters ----------

  predicate ToolsNamed(tools: seq<ToolDef>) {
    forall i :: 0 <= i < |tools| ==> tools[i].name != ""
  }

  predicate NoNullSchemas(tools: seq<ToolDef>) {
    forall i :: 0 <= i < |tools| ==> tools[i].parameters != Some(Null)
  }

  predicate ToolsHaveSchemas(tools: seq<ToolDef>) {
    forall i :: 0 <= i < |tools| ==> HasSchema(tools[i])
  }

  lemma ToolsSnoc(tools: seq<ToolDef>)
    requires tools != []
    ensures ToolsNamed(tools) <==> ToolsNamed(tools[..|tools| - 1]) && tools[|tools| - 1].name != ""
  {
  }

  lemma {:induction false} NamedToolsKeep(tools: seq<ToolDef>)
    ensures |NamedTools(tools)| <= |tools|
    ensures |NamedTools(tools)| == |tools| <==> ToolsNamed(tools)
    ensures NamedTools(tools) == tools <==> ToolsNamed(tools)
  {
    if tools != [] {
      var init, t := tools[..|tools| - 1], tools[|tools| - 1];
      NamedToolsKeep(init);
      ToolsSnoc(tools);
      SnocIs(NamedTools(init), t, tools);
      if t.name == "" {
        assert |NamedTools(tools)| < |tools|;
      }
    }
  }

  lemma SchemasKeep(tools: seq<ToolDef>)
    ensures WithSchemas(tools) == tools <==> ToolsHaveSchemas(tools)
    ensures WithoutNulls(tools) == tools <==> NoNullSchemas(tools)
  {
    if WithSchemas(tools) == tools {
      forall i | 0 <= i < |tools|
        ensures HasSchema(tools[i])
      {
        assert WithSchemas(tools)[i] == tools[i];
      }
    }
    if WithoutNulls(tools) == tools {
      forall i | 0 <= i < |tools|
        ensures tools[i].parameters != Some(Null)
      {
        assert WithoutNulls(tools)[i] == tools[i];
      }
    }
  }

  /** Reading drops the tools without a name, so what was written reads back exactly when all have one. */
  lemma ToolsReread(tools: seq<ToolDef>)
    ensures NamedTools(WithSchemas(tools)) == tools <==> ToolsNamed(tools) && ToolsHaveSchemas(tools)
    ensures NamedTools(WithoutNulls(tools)) == tools <==> ToolsNamed(tools) && NoNullSchemas(tools)
  {
    hide NamedTools, WithSchemas, WithoutNulls;
    SchemasKeep(tools);
    NamedToolsKeep(WithSchemas(tools));
    NamedToolsKeep(WithoutNulls(tools));
    SameNames(tools, WithSchemas(tools));
    SameNames(tools, WithoutNulls(tools));
  }

  lemma SameNames(tools: seq<ToolDef>, others: seq<ToolDef>)
    requires |tools| == |others| && forall i :: 0 <= i < |tools| ==> others[i].name == tools[i].name
    ensures ToolsNamed(others) <==> ToolsNamed(tools)
  {
    if ToolsNamed(others) {
      forall i | 0 <= i < |tools|
        ensures tools[i].name != ""
      {
        assert others[i].name != "";
      }
    }
  }

  /** Choosing any tool is written for neither upstream. */
  predicate ParamsNormalForChat(p: Params) {
    p.maxTokens >= 0 && ToolsNamed(p.tools) && NoNullSchemas(p.tools) && p.toolChoice != AnyTool
  }

  predicate ParamsNormalForMessages(p: Params) {
    p.maxTokens > 0 && ToolsNamed(p.tools) && ToolsHaveSchemas(p.tools) && p.toolChoice != AnyTool
  }

  lemma ChatParamsReread(c: Conversation, p: Params)
    ensures ReadChat(WriteChat(c, p)).1 == p <==> ParamsNormalForChat(p)
  {
    ToolsReread(p.tools);
    hide NamedTools, WithoutNulls, ToolsNamed, NoNullSchemas, SystemText, ReadChatMessages, WriteChatMessages;
    ChoiceReads(p.toolChoice);
    StopReads(p.stop);
    hide ReadToolChoice, WriteChoice, ReadStop, WriteStop;
  }

  lemma ChoiceReads(c: ToolChoice)
    ensures ReadToolChoice(WriteChoice(c)) == c <==> c != AnyTool
    ensures ReadMessagesChoice(WriteMessagesChoice(c)) == c <==> c != AnyTool
  {
  }

  lemma StopReads(stop: seq<string>)
    ensures ReadStop(WriteStop(stop)) == stop
  {
  }

  lemma MessagesParamsReread(c: Conversation, p: Params)
    ensures ReadMessages(WriteMessages(c, p)).1 == p <==> ParamsNormalForMessages(p)
  {
    ToolsReread(p.tools);
    hide NamedTools, WithSchemas, ToolsNamed, ToolsHaveSchemas, ReadTurns, WriteTurns;
    ChoiceReads(p.toolChoice);
    hide ReadMessagesChoice, WriteMessagesChoice;
  }

  // ---------- round trips ----------

  predicate NormalChat(c: Conversation, p: Params) {
    (forall i :: 0 <= i < |c.messages| ==> NormalForChat(c.messages[i])) && ParamsNormalForChat(p)
  }

  predicate NormalMessages(c: Conversation, p: Params) {
    (forall i :: 0 <= i < |c.messages| ==> NormalForMessages(c.messages[i])) && ParamsNormalForMessages(p)
  }

  /** The chat writer's request reads back as the same conversation and parameters exactly for normal ones. */
  lemma ChatRoundTrip(c: Conversation, p: Params)
    ensures ReadChat(WriteChat(c, p)) == (c, p) <==> NormalChat(c, p)
  {
    hide ReadChat, WriteChat, Flat, ChatForm, NormalForChat, ParamsNormalForChat;
    ChatConversationReads(c, p);
    ChatParamsReread(c, p);
    forall m: Message
      ensures |ChatForm(m)| <= 1 && (ChatForm(m) == [m] <==> NormalForChat(m))
    {
      ChatFormIs(m);
    }
    FlatIdentity(ChatForm, c.messages);
  }

  /** The same for the messages writer. */
  lemma MessagesRoundTrip(c: Conversation, p: Params)
    ensures ReadMessages(WriteMessages(c, p)) == (c, p) <==> NormalMessages(c, p)
  {
    hide ReadMessages, WriteMessages, Flat, TurnForm, NormalForMessages, ParamsNormalForMessages;
    MessagesConversationReads(c, p);
    MessagesParamsReread(c, p);
    forall m: Message
      ensures |TurnForm(m)| <= 1 && (TurnForm(m) == [m] <==> NormalForMessages(m))
    {
      TurnFormIs(m);
    }
    FlatIdentity(TurnForm, c.messages);
  }

  /** A chat request through a messages request and back. */
  function ThroughMessages(q: ChatRequest): ChatRequest {
    var (c, p) := ReadChat(q);
    var (c', p') := ReadMessages(WriteMessages(c, p));
    WriteChat(c', p')
  }

  lemma NormalMessagesIsNormalChat(c: Conversation, p: Params)
    requires NormalMessages(c, p)
    ensures NormalChat(c, p)
  {
    forall i | 0 <= i < |c.messages|
      ensures NormalForChat(c.messages[i])
    {
      assert NormalForMessages(c.messages[i]);
    }
  }

  /** Converting a request written from a normal conversation to messages and back gives the same request. */
  lemma NormalRequestsStay(c: Conversation, p: Params)
    requires NormalMessages(c, p)
    ensures ThroughMessages(WriteChat(c, p)) == WriteChat(c, p)
  {
    hide ReadChat, WriteChat, ReadMessages, WriteMessages, NormalMessages, NormalChat;
    NormalMessagesIsNormalChat(c, p);
    ChatRoundTrip(c, p);
    MessagesRoundTrip(c, p);
  }

  /** A messages request through a chat request and back. */
  function ThroughChat(q: MessagesRequest): MessagesRequest {
    var (c, p) := ReadMessages(q);
    var (c', p') := ReadChat(WriteChat(c, p));
    WriteMessages(c', p')
  }

  lemma {:induction false} ReadUsesNormal(text: string, calls: seq<ToolCall>)
    ensures var t := ReadBlocks((if text == "" then [] else [TextBlock(text)]) + WriteUses(calls));
            AllIds(t.calls) && AllPrinted(t.calls)
  {
    hide FormatNat, ParseJsonObject, ReadBlocks, AllIds, AllPrinted;
    var first: seq<Block> := if text == "" then [] else [TextBlock(text)];
    if calls == [] {
      ReadUses(text, calls);
      NoCallsAreFine();
    } else {
      var n := |calls| - 1;
      var c := calls[n];
      ReadUsesNormal(text, calls[..n]);
      var id := if c.id == "" then "toolu_" + FormatNat(n + 1) else c.id;
      assert id != "";
      var args := Printed(ParseJsonObject(c.arguments));
      var before := first + WriteUses(calls[..n]);
      assert first + (WriteUses(calls[..n]) + [ToolUse(id, c.name, args)]) == before + [ToolUse(id, c.name, args)];
      ReadBlocksSnoc(before, ToolUse(id, c.name, args));
      ArgumentsShow(c);
      OneMoreCall(ReadBlocks(before).calls, ToolCall(id, c.name, args));
    }
  }

  lemma OneMoreCall(calls: seq<ToolCall>, c: ToolCall)
    requires AllIds(calls) && AllPrinted(calls) && c.id != "" && c.arguments.Printed? && c.arguments.value != Null
    ensures AllIds(calls + [c]) && AllPrinted(calls + [c])
  {
  }

  /** Whatever the messages writer wrote reads back as normal messages. */
  lemma TurnFormIsNormal(m: Message)
    ensures forall x :: x in TurnForm(m) ==> NormalForMessages(x)
  {
    hide ReadBlocks, WriteUses, AllIds, AllPrinted;
    match m.role
    case Assistant =>
      ReadUses(m.text, m.toolCalls);
      ReadUsesNormal(m.text, m.toolCalls);
      NoCallsAreFine();
    case User =>
      ReadOneBlock(TextBlock(m.text));
    case ToolRole =>
      TurnFormOfResult(m);
  }

  lemma {:induction false} FlatIsNormal(ms: seq<Message>)
    ensures forall x :: x in Flat(TurnForm, ms) ==> NormalForMessages(x)
  {
    hide TurnForm, NormalForMessages;
    if ms != [] {
      TurnFormIsNormal(ms[0]);
      FlatIsNormal(ms[1..]);
    }
  }

  lemma {:induction false} NamedToolsAre(tools: seq<ToolDef>)
    ensures ToolsNamed(NamedTools(tools))
    ensures forall t :: t in NamedTools(tools) ==> t in tools
  {
    if tools != [] {
      var init, last := tools[..|tools| - 1], tools[|tools| - 1];
      assert tools == init + [last];
      NamedToolsAre(init);
    }
  }

  lemma RereadToolsHaveSchemas(tools: seq<ToolDef>)
    ensures ToolsHaveSchemas(NamedTools(WithSchemas(tools)))
  {
    var named := NamedTools(WithSchemas(tools));
    NamedToolsAre(WithSchemas(tools));
    forall i | 0 <= i < |named|
      ensures HasSchema(named[i])
    {
      assert named[i] in WithSchemas(tools);
    }
  }

  /** The messages writer's requests are always read as normal conversations. */
  lemma RereadIsNormal(c: Conversation, p: Params)
    ensures var (c', p') := ReadMessages(WriteMessages(c, p)); NormalMessages(c', p')
  {
    MessagesConversationReads(c, p);
    FlatIsNormal(c.messages);
    var (c', p') := ReadMessages(WriteMessages(c, p));
    forall i | 0 <= i < |c'.messages|
      ensures NormalForMessages(c'.messages[i])
    {
      assert c'.messages[i] in Flat(TurnForm, c.messages);
    }
    RereadParamsAreNormal(c, p);
  }

  lemma RereadParamsAreNormal(c: Conversation, p: Params)
    ensures ParamsNormalForMessages(ReadMessages(WriteMessages(c, p)).1)
  {
    hide NamedTools, WithSchemas, ToolsNamed, ToolsHaveSchemas, ReadTurns, WriteTurns;
    NamedToolsAre(WithSchemas(p.tools));
    RereadToolsHaveSchemas(p.tools);
  }

  /** For every chat request: converted to messages and back it says the same exactly when what it says is normal. */
  lemma ChatToMessagesToChat(q: ChatRequest)
    ensures var (c, p) := ReadChat(q);
            ReadChat(ThroughMessages(q)) == (c, p) <==> NormalMessages(c, p)
  {
    hide ReadChat, WriteChat, ReadMessages, WriteMessages, NormalMessages, NormalChat;
    var (c, p) := ReadChat(q);
    var (c', p') := ReadMessages(WriteMessages(c, p));
    RereadIsNormal(c, p);
    NormalMessagesIsNormalChat(c', p');
    ChatRoundTrip(c', p');
    MessagesRoundTrip(c, p);
  }

  /** The same for every messages request, through chat and back. */
  lemma MessagesToChatToMessages(q: MessagesRequest)
    ensures var (c, p) := ReadMessages(q);
            ReadMessages(ThroughChat(q)) == (c, p) <==> NormalMessages(c, p)
  {
    hide ReadChat, WriteChat, ReadMessages, WriteMessages, NormalMessages, NormalChat;
    var (c, p) := ReadMessages(q);
    var (c', p') := ReadChat(WriteChat(c, p));
    RereadIsNormal(c', p');
    if NormalMessages(c, p) {
      NormalMessagesIsNormalChat(c, p);
      ChatRoundTrip(c, p);
      MessagesRoundTrip(c, p);
    }
  }

  // ---------- runs of tool results ----------

  predicate IsResults(t: TurnMessage) {
    t.content.Blocks? && t.content.blocks != [] && forall i :: 0 <= i < |t.content.blocks| ==> t.content.blocks[i].ToolResult?
  }

  function CountResults(ts: seq<TurnMessage>): nat {
    if ts == [] then 0 else (if IsResults(ts[0]) then 1 else 0) + CountResults(ts[1..])
  }

  /** The maximal runs of tool messages, counted at their ends. */
  function Runs(ms: seq<Message>): nat {
    if ms == [] then 0
    else (if ms[0].role == ToolRole && (|ms| == 1 || ms[1].role != ToolRole) then 1 else 0) + Runs(ms[1..])
  }

  function ResultBlocks(ts: seq<TurnMessage>): seq<Block> {
    if ts == [] then [] else (if IsResults(ts[0]) then ts[0].content.blocks else []) + ResultBlocks(ts[1..])
  }

  function ToolMessages(ms: seq<Message>): seq<Message> {
    if ms == [] then [] else (if ms[0].role == ToolRole then [ms[0]] else []) + ToolMessages(ms[1..])
  }

  lemma {:induction false} RunIsOne(ms: seq<Message>, n: nat)
    requires 0 < n <= |ms| && (forall i :: 0 <= i < n ==> ms[i].role == ToolRole) && (n < |ms| ==> ms[n].role != ToolRole)
    ensures Runs(ms) == 1 + Runs(ms[n..])
    ensures ToolMessages(ms) == ms[..n] + ToolMessages(ms[n..])
    decreases n
  {
    if n == 1 {
      assert ms[..1] == [ms[0]];
    } else {
      var rest := ms[1..];
      assert rest[n - 1..] == ms[n..] && ms[..n] == [ms[0]] + rest[..n - 1];
      assert ms[0].role == ToolRole && ms[1].role == ToolRole && rest[0] == ms[1];
      RunIsOne(rest, n - 1);
      MoreOfARun(ms);
      Associate([ms[0]], rest[..n - 1], ToolMessages(ms[n..]));
    }
  }

  lemma MoreOfARun(ms: seq<Message>)
    requires |ms| > 1 && ms[0].role == ToolRole && ms[1].role == ToolRole
    ensures Runs(ms) == Runs(ms[1..]) && ToolMessages(ms) == [ms[0]] + ToolMessages(ms[1..])
  {
  }

  lemma {:induction false} WriteResultsAreResults(ms: seq<Message>)
    ensures |WriteResults(ms)| == |ms|
    ensures forall i :: 0 <= i < |ms| ==> WriteResults(ms)[i].ToolResult?
  {
    if ms != [] {
      WriteResultsAreResults(ms[..|ms| - 1]);
    }
  }

  lemma {:induction false} WriteResultsConcat(a: seq<Message>, b: seq<Message>)
    ensures WriteResults(a + b) == WriteResults(a) + WriteResults(b)
  {
    if b == [] {
      assert a + b == a;
    } else {
      assert (a + b)[..|a + b| - 1] == a + b[..|b| - 1];
      WriteResultsConcat(a, b[..|b| - 1]);
    }
  }

  lemma UsesAreNotResults(m: Message)
    requires m.role != ToolRole
    ensures !IsResults(WriteTurn(m))
  {
    var blocks := WriteTurn(m).content.blocks;
    if blocks != [] {
      assert !blocks[|blocks| - 1].ToolResult?;
    }
  }

  /** The messages writer sends one tool-result message per maximal run of tool messages, no two in a row,
      and their blocks are the tool messages in order. */
  lemma {:induction false} OneResultMessagePerRun(ms: seq<Message>)
    ensures CountResults(WriteTurns(ms)) == Runs(ms)
    ensures ResultBlocks(WriteTurns(ms)) == WriteResults(ToolMessages(ms))
    ensures forall i :: 0 <= i < |WriteTurns(ms)| - 1 ==> !(IsResults(WriteTurns(ms)[i]) && IsResults(WriteTurns(ms)[i + 1]))
    ensures ms != [] ==> |WriteTurns(ms)| > 0 && (IsResults(WriteTurns(ms)[0]) <==> ms[0].role == ToolRole)
    decreases |ms|
  {
    hide IsResults, WriteTurn, WriteResults;
    if ms == [] {
      assert WriteResults([]) == [] by { NoResults(); }
    } else if ms[0].role == ToolRole {
      var n := RunLength(ms);
      OneResultMessagePerRun(ms[n..]);
      RunIsOne(ms, n);
      RunMessage(ms[..n]);
      WriteResultsConcat(ms[..n], ToolMessages(ms[n..]));
      var m, rest := TurnMessage("user", Blocks(WriteResults(ms[..n]))), WriteTurns(ms[n..]);
      assert WriteTurns(ms) == [m] + rest && ([m] + rest)[1..] == rest;
    } else {
      OneResultMessagePerRun(ms[1..]);
      UsesAreNotResults(ms[0]);
      var m, rest := WriteTurn(ms[0]), WriteTurns(ms[1..]);
      assert WriteTurns(ms) == [m] + rest && ([m] + rest)[1..] == rest;
      assert [] + ResultBlocks(rest) == ResultBlocks(rest) && [] + ToolMessages(ms[1..]) == ToolMessages(ms[1..]);
    }
  }

  lemma NoResults()
    ensures WriteResults([]) == []
  {
  }

  lemma RunMessage(ms: seq<Message>)
    requires ms != []
    ensures IsResults(TurnMessage("user", Blocks(WriteResults(ms))))
  {
    WriteResultsAreResults(ms);
  }

  // ---------- the loops ----------

  method ParseCalls(calls: seq<WireCall>) returns (out: seq<ToolCall>)
    ensures out == ReadCalls(calls)
  {
    out := [];
    for i := 0 to |calls|
      invariant out == ReadCalls(calls[..i])
    {
      assert calls[..i + 1][..i] == calls[..i];
      if calls[i].id == "" && calls[i].name == "" {
        continue;
      }
      out := out + [ToolCall(calls[i].id, calls[i].name, calls[i].arguments)];
    }
    assert calls[..|calls|] == calls;
  }

  method ParseOpenAIMessages(ms: seq<ChatMessage>) returns (c: Conversation)
    ensures c == Conversation(SystemText(ms), ReadChatMessages(ms))
  {
    hide SystemText, ReadChatMessages;
    var system, messages := "", [];
    NoMessages();
    for i := 0 to |ms|
      invariant system == SystemText(ms[..i])
      invariant messages + ReadChatMessages(ms[i..]) == ReadChatMessages(ms)
    {
      OneMoreMessage(ms, i);
      var m, text := ms[i], ContentToText(ms[i].content);
      var more := [];
      if m.role == "system" || m.role == "developer" {
        if system != "" {
          system := system + "\n";
        }
        system := system + text;
      } else if m.role == "assistant" {
        var calls := ParseCalls(m.toolCalls);
        if text != "" || |calls| != 0 {
          more := [Message(Assistant, text, calls, "")];
        }
      } else if m.role == "tool" {
        if m.toolCallId != "" {
          more := [Message(ToolRole, text, [], m.toolCallId)];
        }
      } else if m.role != "function" || text != "" {
        more := [Message(User, text, [], "")];
      }
      Associate(messages, more, ReadChatMessages(ms[i + 1..]));
      messages := messages + more;
    }
    c := Conversation(system, messages);
    assert ms[..|ms|] == ms && ms[|ms|..] == [];
  }

  lemma NoMessages()
    ensures SystemText([]) == "" && ReadChatMessages([]) == []
  {
  }

  lemma OneMoreMessage(ms: seq<ChatMessage>, i: nat)
    requires i < |ms|
    ensures SystemText(ms[..i + 1]) ==
            if IsSystem(ms[i]) then AddSystem(SystemText(ms[..i]), ContentToText(ms[i].content)) else SystemText(ms[..i])
    ensures ReadChatMessages(ms[i..]) == ReadChatMessage(ms[i]) + ReadChatMessages(ms[i + 1..])
  {
    assert ms[..i + 1][..i] == ms[..i] && ms[i..][1..] == ms[i + 1..];
  }

  /** One turn's blocks: text, calls and results are collected apart. */
  method ParseBlocks(blocks: seq<Block>) returns (text: string, calls: seq<ToolCall>, results: seq<Message>)
    ensures Turn(text, calls, results) == ReadBlocks(blocks)
  {
    text, calls, results := "", [], [];
    for i := 0 to |blocks|
      invariant Turn(text, calls, results) == ReadBlocks(blocks[..i])
    {
      assert blocks[..i + 1][..i] == blocks[..i];
      match blocks[i]
      case TextBlock(more) =>
        if text != "" {
          text := text + "\n";
        }
        text := text + more;
      case ToolUse(id, name, input) =>
        if id != "" || name != "" {
          calls := calls + [ToolCall(id, name, ArgsFromRaw(input))];
        }
      case ToolResult(id, content) =>
        if id != "" {
          results := results + [Message(ToolRole, ContentToText(content), [], id)];
        }
      case OtherBlock =>
    }
    assert blocks[..|blocks|] == blocks;
  }

  method ParseAnthropicMessages(ms: seq<TurnMessage>) returns (out: seq<Message>)
    ensures out == ReadTurns(ms)
  {
    out := [];
    for i := 0 to |ms|
      invariant out + ReadTurns(ms[i..]) == ReadTurns(ms)
    {
      assert ms[i..][1..] == ms[i + 1..];
      var text, calls, results := "", [], [];
      var more := [];
      var bad := false;
      match ms[i].content {
        case PlainText(s) => text := s;
        case Blocks(blocks) => text, calls, results := ParseBlocks(blocks);
        case BadContent => bad := true;
      }
      if !bad {
        if ms[i].role == "assistant" {
          if text != "" || |calls| != 0 {
            more := [Message(Assistant, text, calls, "")];
          }
        } else {
          more := results;
          if text != "" {
            more := more + [Message(User, text, [], "")];
          }
        }
      }
      Associate(out, more, ReadTurns(ms[i + 1..]));
      out := out + more;
    }
    assert ms[|ms|..] == [];
  }

  method WriteToolUses(text: string, calls: seq<ToolCall>) returns (content: seq<Block>)
    ensures content == (if text == "" then [] else [TextBlock(text)]) + WriteUses(calls)
  {
    content := [];
    if text != "" {
      content := [TextBlock(text)];
    }
    ghost var first := content;
    for k := 0 to |calls|
      invariant content == first + WriteUses(calls[..k])
    {
      assert calls[..k + 1][..k] == calls[..k];
      var id := calls[k].id;
      if id == "" {
        id := "toolu_" + FormatNat(k + 1);
      }
      content := content + [ToolUse(id, calls[k].name, Printed(ParseJsonObject(calls[k].arguments)))];
    }
    assert calls[..|calls|] == calls;
  }

  /** Adjacent tool results are merged in an inner loop that moves the index past the run. */
  method WriteAnthropicMessages(ms: seq<Message>) returns (out: seq<TurnMessage>)
    ensures out == WriteTurns(ms)
  {
    hide WriteTurns, WriteResults, WriteUses;
    out := [];
    var i := 0;
    assert ms[0..] == ms;
    while i < |ms|
      invariant i <= |ms|
      invariant out + WriteTurns(ms[i..]) == WriteTurns(ms)
    {
      var m := ms[i];
      var turn, next := TurnMessage("user", Blocks([TextBlock(m.text)])), i + 1;
      if m.role == ToolRole {
        var content := [ToolResult(m.toolCallId, Text(m.text))];
        FirstResult(ms, i);
        while next < |ms| && ms[next].role == ToolRole
          invariant i < next <= |ms|
          invariant forall k :: i <= k < next ==> ms[k].role == ToolRole
          invariant content == WriteResults(ms[i..next])
        {
          OneMoreResult(ms, i, next);
          content := content + [ToolResult(ms[next].toolCallId, Text(ms[next].text))];
          next := next + 1;
        }
        RunWritten(ms, i, next);
        turn := TurnMessage("user", Blocks(content));
      } else {
        if m.role == Assistant {
          var content := WriteToolUses(m.text, m.toolCalls);
          turn := TurnMessage("assistant", Blocks(content));
        }
        TurnWritten(ms, i);
      }
      Associate(out, [turn], WriteTurns(ms[next..]));
      out := out + [turn];
      i := next;
    }
    NothingWritten(ms);
  }

  lemma NothingWritten(ms: seq<Message>)
    ensures WriteTurns(ms[|ms|..]) == []
  {
    assert ms[|ms|..] == [];
  }

  lemma FirstResult(ms: seq<Message>, i: nat)
    requires i < |ms|
    ensures WriteResults(ms[i..i + 1]) == [ToolResult(ms[i].toolCallId, Text(ms[i].text))]
  {
    assert ms[i..i + 1] == [ms[i]];
  }

  lemma OneMoreResult(ms: seq<Message>, i: nat, j: nat)
    requires i < j < |ms|
    ensures WriteResults(ms[i..j + 1]) == WriteResults(ms[i..j]) + [ToolResult(ms[j].toolCallId, Text(ms[j].text))]
  {
    assert ms[i..j + 1][..j - i] == ms[i..j];
  }

  lemma TurnWritten(ms: seq<Message>, i: nat)
    requires i < |ms| && ms[i].role != ToolRole
    ensures WriteTurns(ms[i..]) == [WriteTurn(ms[i])] + WriteTurns(ms[i + 1..])
  {
    assert ms[i..][1..] == ms[i + 1..];
  }

  lemma RunWritten(ms: seq<Message>, i: nat, j: nat)
    requires i < j <= |ms| && (forall k :: i <= k < j ==> ms[k].role == ToolRole) && (j < |ms| ==> ms[j].role != ToolRole)
    ensures WriteTurns(ms[i..]) == [TurnMessage("user", Blocks(WriteResults(ms[i..j])))] + WriteTurns(ms[j..])
  {
    hide WriteResults;
    var rest := ms[i..];
    var n := RunLength(rest);
    assert n < |rest| ==> rest[n] == ms[i + n];
    assert j < |ms| ==> rest[j - i] == ms[j];
    assert n == j - i;
    assert rest[..n] == ms[i..j] && rest[n..] == ms[j..];
  }

  method WriteOpenAIMessages(c: Conversation) returns (out: seq<ChatMessage>)
    ensures out == (if c.system == "" then [] else [ChatMessage("system", Text(c.system), [], "")]) + WriteChatMessages(c.messages)
  {
    hide WriteCalls;
    out := [];
    if c.system != "" {
      out := [ChatMessage("system", Text(c.system), [], "")];
    }
    ghost var first := out;
    assert first + [] == first;
    for i := 0 to |c.messages|
      invariant out + WriteChatMessages(c.messages[i..]) == first + WriteChatMessages(c.messages)
    {
      assert c.messages[i..][1..] == c.messages[i + 1..];
      var m := c.messages[i];
      var msg := ChatMessage("user", Text(m.text), [], "");
      match m.role {
        case ToolRole => msg := ChatMessage("tool", Text(m.text), [], m.toolCallId);
        case Assistant =>
          var calls := WriteOpenAICalls(m.toolCalls);
          msg := ChatMessage("assistant", if m.text == "" then NoContent else Text(m.text), calls, "");
        case User =>
      }
      Associate(out, [msg], WriteChatMessages(c.messages[i + 1..]));
      out := out + [msg];
    }
    assert c.messages[|c.messages|..] == [];
  }

  method WriteOpenAICalls(calls: seq<ToolCall>) returns (out: seq<WireCall>)
    ensures out == WriteCalls(calls)
  {
    out := [];
    for i := 0 to |calls|
      invariant out == WriteCalls(calls[..i])
    {
      assert calls[..i + 1][..i] == calls[..i];
      var id := calls[i].id;
      if id == "" {
        id := "call_" + FormatNat(i + 1);
      }
      out := out + [WireCall(id, calls[i].name, calls[i].arguments)];
    }
    assert calls[..|calls|] == calls;
  }
}
