/** The splitter that cuts an upstream byte stream into SSE data payloads, however the bytes arrive. */
module Sse {
  import opened Common

  newtype byte = x: int | 0 <= x < 256

  type Bytes = seq<byte>

  const LF: byte := 10
  const CR: byte := 13
  const SPACE: byte := 32

  /** "data:" and "[DONE]" in ASCII. */
  const DATA_FIELD: Bytes := [100, 97, 116, 97, 58]
  const DONE_MARKER: Bytes := [91, 68, 79, 78, 69, 93]

  // ---------- one-shot specification ----------

  function IndexOfLF(s: Bytes): (i: nat)
    ensures i <= |s|
    ensures forall j :: 0 <= j < i ==> s[j] != LF
    ensures i < |s| ==> s[i] == LF
  {
    if s == [] || s[0] == LF then 0 else 1 + IndexOfLF(s[1..])
  }

  /** The lines of a stream: every LF-terminated line, and the unterminated rest if it is not empty. */
  function Lines(s: Bytes): seq<Bytes>
    decreases |s|
  {
    var i := IndexOfLF(s);
    if i < |s| then [s[..i]] + Lines(s[i + 1..])
    else if s == [] then [] else [s]
  }

  /** A line without the one CR that may precede its LF. */
  function Trim(line: Bytes): Bytes {
    if line != [] && line[|line| - 1] == CR then line[..|line| - 1] else line
  }

  /** The lines of an event up to the next blank line, and what follows it. */
  function EventLength(lines: seq<Bytes>): (n: nat)
    ensures n <= |lines|
    ensures forall j :: 0 <= j < n ==> Trim(lines[j]) != []
    ensures n < |lines| ==> Trim(lines[n]) == []
  {
    if lines == [] || Trim(lines[0]) == [] then 0 else 1 + EventLength(lines[1..])
  }

  predicate IsData(line: Bytes) {
    DATA_FIELD <= Trim(line)
  }

  function DataOf(line: Bytes): Bytes
    requires IsData(line)
  {
    var payload := Trim(line)[|DATA_FIELD|..];
    if payload != [] && payload[0] == SPACE then payload[1..] else payload
  }

  function DataLines(lines: seq<Bytes>): seq<Bytes> {
    if lines == [] then []
    else (if IsData(lines[0]) then [DataOf(lines[0])] else []) + DataLines(lines[1..])
  }

  function Join(parts: seq<Bytes>): Bytes
    requires parts != []
  {
    if |parts| == 1 then parts[0] else parts[0] + [LF] + Join(parts[1..])
  }

  /** Data lines are delivered joined, unless there are none or they say that the stream is done. */
  function Delivery(data: seq<Bytes>): seq<Bytes> {
    if data == [] || Join(data) == DONE_MARKER then [] else [Join(data)]
  }

  function Deliver(event: seq<Bytes>): seq<Bytes> {
    Delivery(DataLines(event))
  }

  /** The payloads of a list of lines: one event per block of non-blank lines; the last block also counts. */
  function Payloads(lines: seq<Bytes>): seq<Bytes>
    decreases |lines|
  {
    var n := EventLength(lines);
    if n < |lines| then Deliver(lines[..n]) + Payloads(lines[n + 1..]) else Deliver(lines)
  }

  /** What a whole stream delivers. */
  function Spec(stream: Bytes): seq<Bytes> {
    Payloads(Lines(stream))
  }

  // ---------- the same, cut off in the middle ----------

  /** The complete lines of a stream so far, and the unterminated rest. */
  function Complete(s: Bytes): (r: (seq<Bytes>, Bytes))
    decreases |s|
  {
    var i := IndexOfLF(s);
    if i < |s| then
      var r := Complete(s[i + 1..]);
      ([s[..i]] + r.0, r.1)
    else ([], s)
  }

  /** The payloads of the events a blank line has ended, and the data lines of the event still open. */
  function Ended(lines: seq<Bytes>): (r: (seq<Bytes>, seq<Bytes>))
    decreases |lines|
  {
    var n := EventLength(lines);
    if n < |lines| then
      var r := Ended(lines[n + 1..]);
      (Deliver(lines[..n]) + r.0, r.1)
    else ([], DataLines(lines))
  }

  /** What the splitter's fields must be after the bytes `fed`. */
  ghost predicate Holds(fed: Bytes, lineBuf: Bytes, dataBuf: Bytes, hasData: bool, delivered: seq<Bytes>) {
    lineBuf == Complete(fed).1 && HoldsLines(Complete(fed).0, dataBuf, hasData, delivered)
  }

  ghost predicate HoldsLines(lines: seq<Bytes>, dataBuf: Bytes, hasData: bool, delivered: seq<Bytes>) {
    var (payloads, data) := Ended(lines);
    && delivered == payloads
    && (hasData <==> data != [])
    && dataBuf == if data == [] then [] else Join(data)
  }

  lemma IndexOfLFIs(s: Bytes, i: nat)
    requires i <= |s| && (i < |s| ==> s[i] == LF)
    requires forall j :: 0 <= j < i ==> s[j] != LF
    ensures IndexOfLF(s) == i
  {
  }

  lemma {:induction false} MoreOfALine(s: Bytes, t: Bytes)
    requires LF !in t
    ensures Complete(s + t) == (Complete(s).0, Complete(s).1 + t)
    decreases |s|
  {
    var i := IndexOfLF(s);
    if i < |s| {
      IndexOfLFIs(s + t, i);
      assert (s + t)[i + 1..] == s[i + 1..] + t && (s + t)[..i] == s[..i];
      MoreOfALine(s[i + 1..], t);
    } else {
      IndexOfLFIs(s + t, |s + t|);
    }
  }

  lemma {:induction false} EndOfALine(s: Bytes, t: Bytes)
    requires LF !in t
    ensures Complete(s + t + [LF]) == (Complete(s).0 + [Complete(s).1 + t], [])
    decreases |s|
  {
    var i := IndexOfLF(s);
    if i < |s| {
      LaterLine(s, t, i);
      EndOfALine(s[i + 1..], t);
      Associate([s[..i]], Complete(s[i + 1..]).0, [Complete(s).1 + t]);
    } else {
      EndOfTheOnlyLine(s, t);
    }
  }

  lemma LaterLine(s: Bytes, t: Bytes, i: nat)
    requires i < |s| && i == IndexOfLF(s)
    ensures IndexOfLF(s + t + [LF]) == i && (s + t + [LF])[..i] == s[..i]
    ensures (s + t + [LF])[i + 1..] == s[i + 1..] + t + [LF]
  {
    IndexOfLFIs(s + t + [LF], i);
  }

  lemma EndOfTheOnlyLine(s: Bytes, t: Bytes)
    requires LF !in s && LF !in t
    ensures Complete(s + t + [LF]) == ([s + t], []) && Complete(s) == ([], s)
    ensures [] + [s + t] == [s + t]
  {
    var whole := s + t + [LF];
    IndexOfLFIs(whole, |s + t|);
    IndexOfLFIs(s, |s|);
    assert whole[..|s + t|] == s + t;
    assert whole[|s + t| + 1..] == [];
    assert Complete([]) == ([], []);
    assert [s + t] + [] == [s + t];
  }

  lemma EventLengthIs(lines: seq<Bytes>, n: nat)
    requires n <= |lines| && (n < |lines| ==> Trim(lines[n]) == [])
    requires forall j :: 0 <= j < n ==> Trim(lines[j]) != []
    ensures EventLength(lines) == n
  {
  }

  lemma {:induction false} DataLinesConcat(a: seq<Bytes>, b: seq<Bytes>)
    ensures DataLines(a + b) == DataLines(a) + DataLines(b)
  {
    hide IsData, DataOf;
    if a == [] {
      assert a + b == b;
    } else {
      assert (a + b)[1..] == a[1..] + b;
      DataLinesConcat(a[1..], b);
      Associate(if IsData(a[0]) then [DataOf(a[0])] else [], DataLines(a[1..]), DataLines(b));
    }
  }

  lemma {:induction false} OneMoreLine(lines: seq<Bytes>, line: Bytes)
    ensures Ended(lines + [line]) ==
            if Trim(line) == [] then (Ended(lines).0 + Delivery(Ended(lines).1), [])
            else (Ended(lines).0, Ended(lines).1 + DataLines([line]))
    decreases |lines|
  {
    var n := EventLength(lines);
    if n < |lines| {
      EventLengthIs(lines + [line], n);
      assert (lines + [line])[n + 1..] == lines[n + 1..] + [line];
      assert (lines + [line])[..n] == lines[..n];
      OneMoreLine(lines[n + 1..], line);
      Associate(Deliver(lines[..n]), Ended(lines[n + 1..]).0, Delivery(Ended(lines).1));
    } else {
      OneMoreLineOfEvent(lines, line);
    }
  }

  lemma OneMoreLineOfEvent(lines: seq<Bytes>, line: Bytes)
    requires EventLength(lines) == |lines|
    ensures Ended(lines + [line]) ==
            if Trim(line) == [] then (Ended(lines).0 + Delivery(Ended(lines).1), [])
            else (Ended(lines).0, Ended(lines).1 + DataLines([line]))
  {
    var n, all := |lines|, lines + [line];
    if Trim(line) == [] {
      EventLengthIs(all, n);
      assert all[..n] == lines && all[n + 1..] == [];
      assert Ended([]) == ([], []);
      assert Deliver(lines) + [] == [] + Delivery(DataLines(lines));
    } else {
      EventLengthIs(all, n + 1);
      DataLinesConcat(lines, [line]);
    }
  }

  lemma {:induction false} JoinGrows(parts: seq<Bytes>, more: Bytes)
    requires parts != []
    ensures Join(parts + [more]) == Join(parts) + [LF] + more
  {
    if |parts| > 1 {
      assert (parts + [more])[1..] == parts[1..] + [more];
      JoinGrows(parts[1..], more);
    } else {
      assert (parts + [more])[1..] == [more];
    }
  }

  lemma JoinOne(part: Bytes)
    ensures Join([part]) == part && [] + [part] == [part]
  {
  }

  lemma {:induction false} LinesAreCompleteAndRest(s: Bytes)
    ensures Lines(s) == Complete(s).0 + if Complete(s).1 == [] then [] else [Complete(s).1]
    decreases |s|
  {
    var i := IndexOfLF(s);
    if i < |s| {
      LinesAreCompleteAndRest(s[i + 1..]);
    }
  }

  lemma {:induction false} PayloadsAreEndedAndRest(lines: seq<Bytes>)
    ensures Payloads(lines) == Ended(lines).0 + Delivery(Ended(lines).1)
    decreases |lines|
  {
    var n := EventLength(lines);
    if n < |lines| {
      PayloadsAreEndedAndRest(lines[n + 1..]);
    }
  }

  lemma CutLine(fed: Bytes, left: Bytes, idx: nat)
    requires idx < |left| && left[idx] == LF && LF !in left[..idx]
    ensures Complete(fed + left[..idx + 1]) == (Complete(fed).0 + [Complete(fed).1 + left[..idx]], [])
    ensures fed + left[..idx + 1] + left[idx + 1..] == fed + left
  {
    hide Complete;
    EndOfALine(fed, left[..idx]);
    assert left[..idx + 1] == left[..idx] + [LF];
    Associate(fed, left[..idx], [LF]);
    assert left == left[..idx + 1] + left[idx + 1..];
    Associate(fed, left[..idx + 1], left[idx + 1..]);
  }

  // ---------- the splitter ----------

  class SSESplitter {
    var lineBuf: Bytes
    var dataBuf: Bytes
    var hasData: bool
    /** The payloads handed to the callback so far. */
    var delivered: seq<Bytes>
    /** Every byte written so far. */
    ghost var fed: Bytes

    ghost predicate Valid()
      reads this
    {
      Holds(fed, lineBuf, dataBuf, hasData, delivered)
    }

    constructor ()
      ensures Valid() && fed == [] && delivered == []
    {
      lineBuf, dataBuf, hasData, delivered, fed := [], [], false, [], [];
    }

    method Write(p: Bytes)
      requires Valid()
      modifies this
      ensures Valid() && fed == old(fed) + p && old(delivered) <= delivered
    {
      var left := p;
      while left != []
        invariant Valid() && fed + left == old(fed) + p && old(delivered) <= delivered
        decreases |left|
      {
        var idx := IndexOfLF(left);
        if idx == |left| {
          MoreOfALine(fed, left);
          lineBuf := lineBuf + left;
          fed := fed + left;
          return;
        }
        CutLine(fed, left, idx);
        lineBuf := lineBuf + left[..idx];
        HandleLine(lineBuf, Complete(fed).0);
        lineBuf := [];
        fed := fed + left[..idx + 1];
        left := left[idx + 1..];
      }
    }

    /** The end of the stream ends an unterminated line and an unfinished event. */
    method Flush()
      requires Valid()
      modifies this
      ensures fed == old(fed) && delivered == Spec(fed) && lineBuf == [] && !hasData && old(delivered) <= delivered
    {
      LinesAreCompleteAndRest(fed);
      PayloadsAreEndedAndRest(Lines(fed));
      if lineBuf != [] {
        HandleLine(lineBuf, Complete(fed).0);
        lineBuf := [];
      } else {
        assert Lines(fed) == Complete(fed).0;
      }
      FinishEvent(Lines(fed));
    }

    method HandleLine(line: Bytes, ghost before: seq<Bytes>)
      requires HoldsLines(before, dataBuf, hasData, delivered)
      modifies this`dataBuf, this`hasData, this`delivered
      ensures HoldsLines(before + [line], dataBuf, hasData, delivered) && old(delivered) <= delivered
    {
      hide Ended, Join;
      OneMoreLine(before, line);
      var text := Trim(line);
      if text == [] {
        FinishEvent(before);
        return;
      }
      if DATA_FIELD <= text {
        var payload := text[|DATA_FIELD|..];
        if payload != [] && payload[0] == SPACE {
          payload := payload[1..];
        }
        assert DataLines([line]) == [payload];
        if hasData {
          JoinGrows(Ended(before).1, payload);
          dataBuf := dataBuf + [LF];
        } else {
          JoinOne(payload);
        }
        dataBuf := dataBuf + payload;
        hasData := true;
      } else {
        assert DataLines([line]) == [];
        assert Ended(before).1 + [] == Ended(before).1;
      }
    }

    method FinishEvent(ghost before: seq<Bytes>)
      requires HoldsLines(before, dataBuf, hasData, delivered)
      modifies this`dataBuf, this`hasData, this`delivered
      ensures !hasData && dataBuf == [] && delivered == Ended(before).0 + Delivery(Ended(before).1)
      ensures old(delivered) <= delivered
    {
      if hasData {
        if dataBuf != DONE_MARKER {
          delivered := delivered + [dataBuf];
        }
        dataBuf := [];
        hasData := false;
      }
    }
  }

  function Concat(chunks: seq<Bytes>): Bytes {
    if chunks == [] then [] else Concat(chunks[..|chunks| - 1]) + chunks[|chunks| - 1]
  }

  /** The read loop of the executor: however the stream is cut into chunks, the same payloads come out. */
  method Split(chunks: seq<Bytes>) returns (payloads: seq<Bytes>)
    ensures payloads == Spec(Concat(chunks))
  {
    var splitter := new SSESplitter();
    for i := 0 to |chunks|
      invariant fresh(splitter) && splitter.Valid() && splitter.fed == Concat(chunks[..i])
    {
      assert chunks[..i + 1][..i] == chunks[..i];
      splitter.Write(chunks[i]);
    }
    assert chunks[..|chunks|] == chunks;
    splitter.Flush();
    payloads := splitter.delivered;
  }

  // ---------- reading back what the gateway writes ----------

  /** "event: " in ASCII. */
  const EVENT_FIELD: Bytes := [101, 118, 101, 110, 116, 58, 32]

  /** What the executor writes for one client event: an optional event line, the data line, a blank line. */
  function Frame(name: Bytes, data: Bytes): Bytes {
    (if name == [] then [] else EVENT_FIELD + name + [LF]) + (DATA_FIELD + [SPACE] + data + [LF]) + [LF]
  }

  function Wire(frames: seq<(Bytes, Bytes)>): Bytes {
    if frames == [] then []
    else Wire(frames[..|frames| - 1]) + Frame(frames[|frames| - 1].0, frames[|frames| - 1].1)
  }

  /** What the frames carry: every frame's data but the marker that ends a chat stream. */
  function DataParts(frames: seq<(Bytes, Bytes)>): seq<Bytes> {
    if frames == [] then [] else DataParts(frames[..|frames| - 1]) + Carried(frames[|frames| - 1].1)
  }

  function Carried(data: Bytes): seq<Bytes> {
    if data == DONE_MARKER then [] else [data]
  }

  /** No line breaks, as in JSON text and event names. */
  predicate Plain(b: Bytes) {
    LF !in b && CR !in b
  }

  lemma EventLineIsIgnored(name: Bytes)
    requires CR !in name
    ensures Trim(EVENT_FIELD + name) != [] && DataLines([EVENT_FIELD + name]) == []
  {
    var line := EVENT_FIELD + name;
    assert line[|line| - 1] != CR;
    assert Trim(line)[0] == EVENT_FIELD[0] != DATA_FIELD[0];
  }

  lemma DataLineCarries(data: Bytes)
    requires CR !in data
    ensures Trim(DATA_FIELD + [SPACE] + data) != [] && DataLines([DATA_FIELD + [SPACE] + data]) == [data]
  {
    var line := DATA_FIELD + [SPACE] + data;
    assert line[|line| - 1] != CR;
    assert line[|DATA_FIELD|..] == [SPACE] + data;
    assert ([SPACE] + data)[1..] == data;
  }

  /** The state after whole frames: no rest of a line, no open event, and these payloads. */
  predicate At(stream: Bytes, payloads: seq<Bytes>, data: seq<Bytes>) {
    Complete(stream).1 == [] && Ended(Complete(stream).0) == (payloads, data)
  }

  lemma LineFollows(stream: Bytes, payloads: seq<Bytes>, data: seq<Bytes>, line: Bytes)
    requires At(stream, payloads, data) && LF !in line
    ensures At(stream + line + [LF], if Trim(line) == [] then payloads + Delivery(data) else payloads,
               if Trim(line) == [] then [] else data + DataLines([line]))
  {
    EndOfALine(stream, line);
    OneMoreLine(Complete(stream).0, line);
    assert [] + line == line;
  }

  lemma FrameFollows(stream: Bytes, payloads: seq<Bytes>, name: Bytes, data: Bytes)
    requires At(stream, payloads, []) && Plain(name) && Plain(data)
    ensures At(stream + Frame(name, data), payloads + Carried(data), [])
  {
    hide At, Frame;
    NameFollows(stream, payloads, name);
    DataFollows(stream + Named(name), payloads, data);
    FrameParts(stream, name, data);
  }

  function Named(name: Bytes): Bytes {
    if name == [] then [] else EVENT_FIELD + name + [LF]
  }

  lemma NameFollows(stream: Bytes, payloads: seq<Bytes>, name: Bytes)
    requires At(stream, payloads, []) && Plain(name)
    ensures At(stream + Named(name), payloads, [])
  {
    hide At;
    if name == [] {
      assert stream + [] == stream;
    } else {
      EventLineIsIgnored(name);
      LineFollows(stream, payloads, [], EVENT_FIELD + name);
      Associate(stream, EVENT_FIELD + name, [LF]);
    }
  }

  lemma DataFollows(stream: Bytes, payloads: seq<Bytes>, data: Bytes)
    requires At(stream, payloads, []) && Plain(data)
    ensures At(stream + (DATA_FIELD + [SPACE] + data) + [LF] + [] + [LF], payloads + Carried(data), [])
  {
    hide At;
    DataLineCarries(data);
    LineFollows(stream, payloads, [], DATA_FIELD + [SPACE] + data);
    assert [] + [data] == [data];
    assert Delivery([data]) == Carried(data);
    LineFollows(stream + (DATA_FIELD + [SPACE] + data) + [LF], payloads, [data], []);
  }

  lemma FrameParts(stream: Bytes, name: Bytes, data: Bytes)
    ensures stream + Frame(name, data) ==
            stream + Named(name) + (DATA_FIELD + [SPACE] + data) + [LF] + [] + [LF]
  {
  }

  lemma {:induction false} WireIsAt(frames: seq<(Bytes, Bytes)>)
    requires forall f :: f in frames ==> Plain(f.0) && Plain(f.1)
    ensures At(Wire(frames), DataParts(frames), [])
  {
    if frames != [] {
      var init, f := frames[..|frames| - 1], frames[|frames| - 1];
      WireIsAt(init);
      FrameFollows(Wire(init), DataParts(init), f.0, f.1);
    }
  }

  /** Splitting what the gateway wrote gives the written payloads back, in order; the marker that ends a chat stream is dropped. */
  lemma WireRoundTrip(frames: seq<(Bytes, Bytes)>)
    requires forall f :: f in frames ==> Plain(f.0) && Plain(f.1)
    ensures Spec(Wire(frames)) == DataParts(frames)
  {
    WireIsAt(frames);
    LinesAreCompleteAndRest(Wire(frames));
    PayloadsAreEndedAndRest(Lines(Wire(frames)));
    assert DataParts(frames) + [] == DataParts(frames);
    assert Complete(Wire(frames)).0 + [] == Complete(Wire(frames)).0;
  }
}
