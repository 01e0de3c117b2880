/** What the readers keep of any request and the writers send for any conversation, said without the functions that do it. */
module ConvertLaws {
  import opened Common
  import opened Convert
  import opened Folds
  import Upstream

  // ---------- texts ----------

  function NewLine(): string -> string {
    (text: string) => "\n" + text
  }

  /** The texts from the first that is not empty on, each on its own line. */
  function Lines(texts: seq<string>): string {
    if texts == [] then "" else if texts[0] == "" then Lines(texts[1..]) else texts[0] + Concat(Map(NewLine(), texts[1..]))
  }

  lemma {:induction false} LinesSnoc(texts: seq<string>, text: string)
    ensures Lines(texts + [text]) == if Lines(texts) == "" then text else Lines(texts) + "\n" + text
  {
    hide Concat;
    ConcatMapOne(NewLine(), text);
    if texts == [] {
      assert ([] + [text])[1..] == [];
    } else {
      assert (texts + [text])[1..] == texts[1..] + [text];
      if texts[0] == "" {
        LinesSnoc(texts[1..], text);
      } else {
        ConcatMap(NewLine(), texts[1..], [text]);
        Associate(texts[0], Concat(Map(NewLine(), texts[1..])), "\n" + text);
        Associate(Lines(texts), "\n", text);
      }
    }
  }

  predicate IsFilled(p: Part) {
    p.text != ""
  }

  function PartText(): Part -> string {
    (p: Part) => p.text
  }

  /** The text of a list of parts is its filled parts' texts on lines; a string is its own text, and anything else has none. */
  lemma {:induction false} PartsAreLines(parts: seq<Part>, text: string)
    ensures ContentToText(Parts(parts)) == Lines(Map(PartText(), Filter(IsFilled, parts)))
    ensures ContentToText(Text(text)) == text && ContentToText(NoContent) == ContentToText(OtherContent) == ""
  {
    hide Lines;
    if parts == [] {
      NoLines();
      assert Map(PartText(), []) == [];
    } else {
      var init, p := parts[..|parts| - 1], parts[|parts| - 1];
      FilterLast(IsFilled, parts);
      PartsAreLines(init, text);
      if IsFilled(p) {
        MapSnoc(PartText(), Filter(IsFilled, init), p);
        LinesSnoc(Map(PartText(), Filter(IsFilled, init)), p.text);
      }
    }
  }

  lemma NoLines()
    ensures Lines([]) == ""
  {
  }

  // ---------- chat requests ----------

  predicate IsInstruction(m: ChatMessage) {
    m.role == "system" || m.role == "developer"
  }

  predicate Identified(c: WireCall) {
    c.id != "" || c.name != ""
  }

  lemma {:induction false} CallsAreKept(calls: seq<WireCall>)
    ensures ReadCalls(calls) == Map((c: WireCall) => ToolCall(c.id, c.name, c.arguments), Filter(Identified, calls))
  {
    var read := (c: WireCall) => ToolCall(c.id, c.name, c.arguments);
    if calls != [] {
      var init, c := calls[..|calls| - 1], calls[|calls| - 1];
      CallsAreKept(init);
      MapConcat(read, Filter(Identified, init), [c]);
    }
  }

  /** Instructions go elsewhere; an answer without text and calls, a tool message without an id, and a function message without
      text are dropped; every other message is kept as one. */
  predicate Kept(m: ChatMessage) {
    && !IsInstruction(m)
    && !(m.role == "assistant" && ContentToText(m.content) == "" && Filter(Identified, m.toolCalls) == [])
    && !(m.role == "tool" && m.toolCallId == "")
    && !(m.role == "function" && ContentToText(m.content) == "")
  }

  /** A kept message has its content's text; only tool messages have an id, and only answers have calls. */
  predicate SaysTheSame(m: ChatMessage, x: Message) {
    && x.text == ContentToText(m.content)
    && (x.role == Assistant <==> m.role == "assistant") && (x.role == ToolRole <==> m.role == "tool")
    && x.toolCallId == (if m.role == "tool" then m.toolCallId else "")
    && x.toolCalls == if m.role == "assistant" then ReadCalls(m.toolCalls) else []
  }

  lemma ChatMessagesAreKept(m: ChatMessage)
    ensures if Kept(m) then |ReadChatMessage(m)| == 1 && SaysTheSame(m, ReadChatMessage(m)[0]) else ReadChatMessage(m) == []
  {
    hide ContentToText;
    CallsAreKept(m.toolCalls);
    var kept := Filter(Identified, m.toolCalls);
    assert |Map((c: WireCall) => ToolCall(c.id, c.name, c.arguments), kept)| == |kept|;
  }

  /** Messages are read one after the other. */
  lemma {:induction false} ChatMessagesInOrder(a: seq<ChatMessage>, b: seq<ChatMessage>)
    ensures ReadChatMessages(a + b) == ReadChatMessages(a) + ReadChatMessages(b)
  {
    hide ReadChatMessage;
    if a == [] {
      assert a + b == b;
    } else {
      assert (a + b)[1..] == a[1..] + b;
      ChatMessagesInOrder(a[1..], b);
    }
  }

  function InstructionText(): ChatMessage -> string {
    (m: ChatMessage) => ContentToText(m.content)
  }

  /** The system text is the instructions' texts on lines, wherever the instructions stand. */
  lemma {:induction false} InstructionsAreLines(ms: seq<ChatMessage>)
    ensures SystemText(ms) == Lines(Map(InstructionText(), Filter(IsInstruction, ms)))
  {
    hide Lines, ContentToText;
    if ms == [] {
      NoLines();
      assert Map(InstructionText(), []) == [];
    } else {
      var init, m := ms[..|ms| - 1], ms[|ms| - 1];
      FilterLast(IsInstruction, ms);
      InstructionsAreLines(init);
      if IsInstruction(m) {
        MapSnoc(InstructionText(), Filter(IsInstruction, init), m);
        LinesSnoc(Map(InstructionText(), Filter(IsInstruction, init)), ContentToText(m.content));
      }
    }
  }

  // ---------- messages requests ----------

  predicate IsText(b: Block) {
    b.TextBlock?
  }

  predicate IsCall(b: Block) {
    b.ToolUse? && (b.id != "" || b.name != "")
  }

  predicate IsAnswer(b: Block) {
    b.ToolResult? && b.toolUseId != ""
  }

  function CallIn(): Block -> ToolCall {
    (b: Block) => if b.ToolUse? then ToolCall(b.id, b.name, if b.input == Printed(Null) then Absent else b.input) else ToolCall("", "", Absent)
  }

  function AnswerIn(): Block -> Message {
    (b: Block) => if b.ToolResult? then Message(ToolRole, ContentToText(b.content), [], b.toolUseId) else Message(ToolRole, "", [], "")
  }

  /** A turn's calls are its blocks that name one, and its results those that name theirs, in order. */
  lemma {:induction false} BlocksAreKept(blocks: seq<Block>)
    ensures ReadBlocks(blocks).calls == Map(CallIn(), Filter(IsCall, blocks))
    ensures ReadBlocks(blocks).results == Map(AnswerIn(), Filter(IsAnswer, blocks))
  {
    hide ContentToText;
    if blocks == [] {
      assert Map(CallIn(), []) == [] && Map(AnswerIn(), []) == [];
    } else {
      var init, b := blocks[..|blocks| - 1], blocks[|blocks| - 1];
      BlocksAreKept(init);
      MapConcat(CallIn(), Filter(IsCall, init), [b]);
      MapConcat(AnswerIn(), Filter(IsAnswer, init), [b]);
      assert Map(CallIn(), [b]) == [CallIn()(b)] && Map(AnswerIn(), [b]) == [AnswerIn()(b)];
    }
  }

  function TextIn(): Block -> string {
    (b: Block) => if b.TextBlock? then b.text else ""
  }

  /** A turn's text is its text blocks' on lines. */
  lemma {:induction false} TextBlocksAreLines(blocks: seq<Block>)
    ensures ReadBlocks(blocks).text == Lines(Map(TextIn(), Filter(IsText, blocks)))
  {
    hide Lines, ContentToText;
    if blocks == [] {
      NoLines();
      assert Map(TextIn(), []) == [];
    } else {
      var init, b := blocks[..|blocks| - 1], blocks[|blocks| - 1];
      FilterLast(IsText, blocks);
      TextBlocksAreLines(init);
      if IsText(b) {
        MapSnoc(TextIn(), Filter(IsText, init), b);
        LinesSnoc(Map(TextIn(), Filter(IsText, init)), b.text);
      }
    }
  }

  function BlocksOf(m: TurnMessage): seq<Block> {
    match m.content
    case PlainText(text) => if text == "" then [] else [TextBlock(text)]
    case Blocks(blocks) => blocks
    case BadContent => []
  }

  /** A string is read like one text block. */
  lemma StringsAreTextBlocks(m: TurnMessage)
    ensures ReadTurn(m) == ReadTurn(m.(content := Blocks(BlocksOf(m))))
  {
    assert ReadBlocks([]) == Turn("", [], []);
    if m.content.PlainText? {
      ReadOneBlock(TextBlock(m.content.text));
    }
  }

  /** Of a user turn: first its results that name their call, in order, then its text as one user message, if it has any; no result
      comes after the text, and its calls are nothing. */
  lemma ResultsBeforeText(m: TurnMessage)
    requires m.role != "assistant"
    ensures var out, answers := ReadTurn(m), Map(AnswerIn(), Filter(IsAnswer, BlocksOf(m)));
            && answers <= out && |out| <= |answers| + 1
            && (forall i :: 0 <= i < |out| ==> (out[i].role == ToolRole <==> i < |answers|))
            && (forall i, j :: 0 <= i < j < |out| ==> !(out[i].role == User && out[j].role == ToolRole))
            && (|out| > |answers| <==> ReadBlocks(BlocksOf(m)).text != "")
            && (|out| > |answers| ==> out[|answers|] == Message(User, ReadBlocks(BlocksOf(m)).text, [], ""))
  {
    hide ContentToText, ReadBlocks;
    StringsAreTextBlocks(m);
    BlocksAreKept(BlocksOf(m));
    hide ReadTurn;
    var blocks := BlocksOf(m);
    assert ReadTurn(m.(content := Blocks(blocks))) == TurnMessages(false, ReadBlocks(blocks)) by { TurnOfBlocks(m, blocks); }
    assert forall i :: 0 <= i < |Filter(IsAnswer, blocks)| ==> AnswerIn()(Filter(IsAnswer, blocks)[i]).role == ToolRole;
  }

  lemma TurnOfBlocks(m: TurnMessage, blocks: seq<Block>)
    ensures ReadTurn(m.(content := Blocks(blocks))) == TurnMessages(m.role == "assistant", ReadBlocks(blocks))
  {
  }

  /** Of an assistant turn: one message with its text and calls, unless it has neither; its results are nothing. */
  lemma AnswersAreOneMessage(m: TurnMessage)
    requires m.role == "assistant"
    ensures var text, calls := ReadBlocks(BlocksOf(m)).text, Map(CallIn(), Filter(IsCall, BlocksOf(m)));
            ReadTurn(m) == if text == "" && calls == [] then [] else [Message(Assistant, text, calls, "")]
  {
    hide ContentToText, ReadBlocks, ReadTurn;
    StringsAreTextBlocks(m);
    BlocksAreKept(BlocksOf(m));
    TurnOfBlocks(m, BlocksOf(m));
  }

  lemma {:induction false} TurnsInOrder(a: seq<TurnMessage>, b: seq<TurnMessage>)
    ensures ReadTurns(a + b) == ReadTurns(a) + ReadTurns(b)
  {
    hide ReadTurn;
    if a == [] {
      assert a + b == b;
    } else {
      assert (a + b)[1..] == a[1..] + b;
      TurnsInOrder(a[1..], b);
      Associate(ReadTurn(a[0]), ReadTurns(a[1..]), ReadTurns(b));
    }
  }

  lemma {:induction false} WrittenOneByOne(ms: seq<Message>, i: nat)
    requires i < |ms|
    ensures |WriteChatMessages(ms)| == |ms| && WriteChatMessages(ms)[i] == WriteChatMessage(ms[i])
  {
    hide WriteChatMessage;
    if i > 0 {
      WrittenOneByOne(ms[1..], i - 1);
    } else if |ms| > 1 {
      WrittenOneByOne(ms[1..], 0);
    }
  }

  /** In the chat request made of a messages request, the tool messages of a turn directly follow what the turns before it
      produced, in the order of its results. */
  lemma ToolMessagesFollowTheirCalls(q: MessagesRequest, p: Params, k: nat, i: nat)
    requires k < |q.messages| && q.messages[k].role != "assistant"
    requires i < |Filter(IsAnswer, BlocksOf(q.messages[k]))|
    ensures var c, answer := ReadMessages(q).0, AnswerIn()(Filter(IsAnswer, BlocksOf(q.messages[k]))[i]);
            var head, before := if c.system == "" then 0 else 1, |ReadTurns(q.messages[..k])|;
            && head + before + i < |WriteChat(c, p).messages|
            && WriteChat(c, p).messages[head + before + i] == ChatMessage("tool", Text(answer.text), [], answer.toolCallId)
  {
    hide *;
    var turns, m, c := q.messages, q.messages[k], ReadMessages(q).0;
    var before := |ReadTurns(turns[..k])|;
    MessagesRead(q);
    AnswerAt(m, i);
    TurnAt(turns, k);
    InTheMiddle(ReadTurns(turns[..k]), ReadTurn(m), ReadTurns(turns[k + 1..]), i);
    SentAfterTheHead(c, p, before + i);
    AnswerIsSent(Filter(IsAnswer, BlocksOf(m))[i]);
  }

  lemma MessagesRead(q: MessagesRequest)
    ensures ReadMessages(q).0.messages == ReadTurns(q.messages)
  {
  }

  lemma AnswerAt(m: TurnMessage, i: nat)
    requires m.role != "assistant" && i < |Filter(IsAnswer, BlocksOf(m))|
    ensures i < |ReadTurn(m)| && ReadTurn(m)[i] == AnswerIn()(Filter(IsAnswer, BlocksOf(m))[i])
  {
    ResultsBeforeText(m);
  }

  lemma InTheMiddle<T>(a: seq<T>, b: seq<T>, c: seq<T>, i: nat)
    requires i < |b|
    ensures |a| + i < |a + (b + c)| && (a + (b + c))[|a| + i] == b[i]
  {
  }

  lemma SentAfterTheHead(c: Conversation, p: Params, i: nat)
    requires i < |c.messages|
    ensures var head := if c.system == "" then 0 else 1;
            head + i < |WriteChat(c, p).messages| && WriteChat(c, p).messages[head + i] == WriteChatMessage(c.messages[i])
  {
    WrittenOneByOne(c.messages, i);
    hide WriteChatMessages, WriteChatMessage;
  }

  lemma AnswerIsSent(b: Block)
    ensures WriteChatMessage(AnswerIn()(b)) == ChatMessage("tool", Text(AnswerIn()(b).text), [], AnswerIn()(b).toolCallId)
  {
  }

  lemma TurnAt(turns: seq<TurnMessage>, k: nat)
    requires k < |turns|
    ensures ReadTurns(turns) == ReadTurns(turns[..k]) + (ReadTurn(turns[k]) + ReadTurns(turns[k + 1..]))
  {
    hide ReadTurn;
    assert turns == turns[..k] + turns[k..] && turns[k..][1..] == turns[k + 1..];
    TurnsInOrder(turns[..k], turns[k..]);
  }

  // ---------- what the writers send ----------

  /** Every call keeps its id, or gets one by its position, counted from one, and its name and arguments. */
  lemma {:induction false} CallsAreWritten(calls: seq<ToolCall>, k: nat)
    requires k < |calls|
    ensures |WriteCalls(calls)| == |calls|
    ensures var w := WriteCalls(calls)[k];
            && w.name == calls[k].name && w.arguments == calls[k].arguments
            && w.id == if calls[k].id != "" then calls[k].id else "call_" + Upstream.FormatNat(k + 1)
  {
    hide Upstream.FormatNat;
    var n := |calls| - 1;
    if k < n {
      CallsAreWritten(calls[..n], k);
    } else if n > 0 {
      CallsAreWritten(calls[..n], 0);
    }
  }

  predicate IsObjectFor(v: Value, text: JsonText) {
    if (text.Printed? || text.Spelled?) && text.value != Null then v == text.value else v == Object(map[])
  }

  /** The same for tool-use blocks, whose input is the value of the arguments, or an empty object when they are none. */
  lemma {:induction false} UsesAreWritten(calls: seq<ToolCall>, k: nat)
    requires k < |calls|
    ensures |WriteUses(calls)| == |calls|
    ensures var b := WriteUses(calls)[k];
            && b.ToolUse? && b.name == calls[k].name && b.input.Printed? && IsObjectFor(b.input.value, calls[k].arguments)
            && b.id == if calls[k].id != "" then calls[k].id else "toolu_" + Upstream.FormatNat(k + 1)
  {
    hide Upstream.FormatNat;
    var n := |calls| - 1;
    if k < n {
      UsesAreWritten(calls[..n], k);
    } else if n > 0 {
      UsesAreWritten(calls[..n], 0);
    }
  }

  /** What an answer is sent as: to a messages upstream its text, if any, before its uses; to a chat upstream the text beside the
      calls, and no content without one. */
  lemma AnswersAreWritten(m: Message)
    requires m.role == Assistant
    ensures var blocks := WriteTurn(m).content.blocks;
            && WriteTurn(m).role == "assistant" && WriteTurn(m).content.Blocks?
            && (m.text != "" ==> |blocks| > 0 && blocks[0] == TextBlock(m.text) && blocks[1..] == WriteUses(m.toolCalls))
            && (m.text == "" ==> blocks == WriteUses(m.toolCalls))
    ensures var w := WriteChatMessage(m);
            && w.role == "assistant" && w.toolCalls == WriteCalls(m.toolCalls)
            && (w.content == NoContent <==> m.text == "") && (m.text != "" ==> w.content == Text(m.text))
  {
    hide WriteUses, WriteCalls;
    if m.text != "" {
      assert ([TextBlock(m.text)] + WriteUses(m.toolCalls))[1..] == WriteUses(m.toolCalls);
    } else {
      assert [] + WriteUses(m.toolCalls) == WriteUses(m.toolCalls);
    }
  }

  function Schema(schema: Option<Value>, absent: Option<Value>): Option<Value> {
    if schema == None || schema == Some(Null) then absent else schema
  }

  /** The tools sent: those with a name, as they are but for the schema. */
  lemma ToolsAreSent(tools: seq<ToolDef>, i: nat)
    requires i < |Filter((t: ToolDef) => t.name != "", tools)|
    ensures var named := Filter((t: ToolDef) => t.name != "", tools);
            && |WithSchemas(NamedTools(tools))| == |WithoutNulls(NamedTools(tools))| == |named|
            && WithoutNulls(NamedTools(tools))[i] == named[i].(parameters := Schema(named[i].parameters, None))
            && WithSchemas(NamedTools(tools))[i] ==
               named[i].(parameters := Schema(named[i].parameters, Some(Object(map["type" := Str("object")]))))
  {
    NamedToolsAreKept(tools);
  }

  /** Every parameter of a chat request in the messages request made of it. */
  lemma ChatParamsAsMessages(q: ChatRequest, mode: string, name: string)
    ensures var (c, p) := ReadChat(q);
            var r := WriteMessages(c, p);
            && r.temperature == q.temperature && r.topP == q.topP && r.stream == q.stream
            && r.maxTokens == (if q.maxTokens.Some? && q.maxTokens.value > 0 then q.maxTokens.value else 1024)
            && r.tools == WithSchemas(NamedTools(q.tools))
            && (q.stop == NullStop ==> r.stop == [""]) && (q.stop == NoStop || q.stop == OtherStop ==> r.stop == [])
            && (q.stop.OneStop? ==> r.stop == [q.stop.s]) && (q.stop.Stops? ==> r.stop == q.stop.all)
            && (r.system == NoContent <==> SystemText(q.messages) == "") && (r.system != NoContent ==> r.system == Text(SystemText(q.messages)))
            && (q.toolChoice in {ModeName("auto"), ChoiceObject("auto", name, mode)} ==> r.toolChoice == Some(("auto", "")))
            && (q.toolChoice in {ModeName("none"), ChoiceObject("none", name, mode)} ==> r.toolChoice == Some(("none", "")))
            && (q.toolChoice in {ModeName("required"), ChoiceObject("required", name, mode)} ==> r.toolChoice == Some(("any", "")))
            && (q.toolChoice == ChoiceObject("function", name, mode) ==> r.toolChoice == Some(("tool", if name != "" then name else mode)))
            && (q.toolChoice in {NoChoice, OtherChoice, ModeName("any")} ==> r.toolChoice == None)
  {
    hide SystemText, NamedTools, WithSchemas, ReadChatMessages, WriteTurns;
  }

  /** Every parameter of a messages request in the chat request made of it. */
  lemma MessagesParamsAsChat(q: MessagesRequest)
    ensures var (c, p) := ReadMessages(q);
            var r := WriteChat(c, p);
            && r.temperature == q.temperature && r.topP == q.topP && r.stream == q.stream
            && r.maxTokens == (if q.maxTokens > 0 then Some(q.maxTokens) else None)
            && r.tools == WithoutNulls(NamedTools(q.tools))
            && (q.stop == [] ==> r.stop == NoStop) && (|q.stop| > 1 ==> r.stop == Stops(q.stop))
            && (|q.stop| == 1 ==> r.stop == OneStop(q.stop[0]))
            && (ContentToText(q.system) != "" ==>
                  |r.messages| > 0 && r.messages[0] == ChatMessage("system", Text(ContentToText(q.system)), [], ""))
            && (q.toolChoice.Some? ==>
                  var (kind, name) := q.toolChoice.value;
                  r.toolChoice == match kind
                                  case "auto" => ModeName("auto")
                                  case "none" => ModeName("none")
                                  case "any" => ModeName("required")
                                  case "tool" => ChoiceObject("function", "", name)
                                  case _ => NoChoice)
            && (q.toolChoice == None ==> r.toolChoice == NoChoice)
  {
    hide ContentToText, NamedTools, WithoutNulls, ReadTurns, WriteChatMessages;
  }

  /** Reading keeps the tools that have a name. */
  lemma {:induction false} NamedToolsAreKept(tools: seq<ToolDef>)
    ensures NamedTools(tools) == Filter((t: ToolDef) => t.name != "", tools)
  {
    if tools != [] {
      NamedToolsAreKept(tools[..|tools| - 1]);
    }
  }
}
