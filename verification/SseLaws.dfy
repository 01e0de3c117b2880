/** What the splitter delivers for whole streams, said without its rules for lines: line ends, line breaks in payloads, other
    fields, and the end of the stream. */
module SseLaws {
  import opened Common
  import opened Sse

  // ---------- line ends ----------

  /** The same stream with CR LF for LF. */
  function WithCR(s: Bytes): Bytes {
    if s == [] then [] else (if s[0] == LF then [CR, LF] else [s[0]]) + WithCR(s[1..])
  }

  lemma {:induction false} WithCRConcat(a: Bytes, b: Bytes)
    ensures WithCR(a + b) == WithCR(a) + WithCR(b)
  {
    if a == [] {
      assert a + b == b;
    } else {
      assert (a + b)[1..] == a[1..] + b;
      WithCRConcat(a[1..], b);
      Associate(if a[0] == LF then [CR, LF] else [a[0]], WithCR(a[1..]), WithCR(b));
    }
  }

  lemma {:induction false} NoLineEnds(s: Bytes)
    requires LF !in s
    ensures WithCR(s) == s
  {
    if s != [] {
      NoLineEnds(s[1..]);
      assert s == [s[0]] + s[1..];
    }
  }

  lemma OneLineEnd()
    ensures WithCR([LF]) == [CR, LF] && WithCR([]) == []
  {
    assert [LF][1..] == [];
    assert [CR, LF] + [] == [CR, LF];
  }

  lemma FirstLine(first: Bytes, rest: Bytes)
    requires LF !in first
    ensures WithCR(first + [LF] + rest) == first + [CR] + [LF] + WithCR(rest)
  {
    hide WithCR;
    WithCRConcat(first + [LF], rest);
    WithCRConcat(first, [LF]);
    NoLineEnds(first);
    OneLineEnd();
    assert first + [CR, LF] == first + [CR] + [LF];
  }

  lemma SplitAt(s: Bytes, i: nat)
    requires i < |s| && s[i] == LF
    ensures s == s[..i] + [LF] + s[i + 1..]
  {
  }

  /** Line by line the same but for one CR at the end. */
  predicate SameLines(a: seq<Bytes>, b: seq<Bytes>) {
    |a| == |b| && forall i :: 0 <= i < |a| ==> CR !in a[i] && (b[i] == a[i] || b[i] == a[i] + [CR])
  }

  lemma LinesOfFirst(first: Bytes, rest: Bytes)
    requires LF !in first
    ensures Lines(first + [LF] + rest) == [first] + Lines(rest)
  {
    var s := first + [LF] + rest;
    IndexOfLFIs(s, |first|);
    assert s[..|first|] == first && s[|first| + 1..] == rest;
  }

  lemma {:induction false} LinesWithCR(s: Bytes)
    requires CR !in s
    ensures SameLines(Lines(s), Lines(WithCR(s)))
    decreases |s|
  {
    var i := IndexOfLF(s);
    if i < |s| {
      SplitAt(s, i);
      FirstLine(s[..i], s[i + 1..]);
      LinesWithCR(s[i + 1..]);
      LinesOfFirst(s[..i] + [CR], WithCR(s[i + 1..]));
      OneMoreSame(s[..i], Lines(s[i + 1..]), Lines(WithCR(s[i + 1..])));
    } else {
      NoLineEnds(s);
    }
  }

  lemma OneMoreSame(line: Bytes, a: seq<Bytes>, b: seq<Bytes>)
    requires CR !in line && SameLines(a, b)
    ensures SameLines([line] + a, [line + [CR]] + b)
  {
  }

  lemma TrimsAlike(line: Bytes)
    requires CR !in line
    ensures Trim(line + [CR]) == Trim(line) == line
  {
  }

  lemma SameData(a: Bytes, b: Bytes)
    requires CR !in a && (b == a || b == a + [CR])
    ensures DataLines([a]) == DataLines([b]) && (Trim(a) == [] <==> Trim(b) == [])
  {
    TrimsAlike(a);
    hide Trim;
    assert [a][1..] == [] && [b][1..] == [];
  }

  lemma {:induction false} SameEnded(a: seq<Bytes>, b: seq<Bytes>)
    requires SameLines(a, b)
    ensures Ended(a) == Ended(b)
  {
    if a != [] {
      var n := |a| - 1;
      assert SameLines(a[..n], b[..n]);
      SameEnded(a[..n], b[..n]);
      SameData(a[n], b[n]);
      hide Ended, DataLines, Trim, Delivery;
      OneMoreLine(a[..n], a[n]);
      OneMoreLine(b[..n], b[n]);
      SnocIs(a[..n], a[n], a);
      SnocIs(b[..n], b[n], b);
    }
  }

  /** A stream with CR LF line ends delivers what the one with LF delivers. */
  lemma LineEndsDoNotMatter(stream: Bytes)
    requires CR !in stream
    ensures Spec(WithCR(stream)) == Spec(stream)
  {
    LinesWithCR(stream);
    SameEnded(Lines(stream), Lines(WithCR(stream)));
    PayloadsAreEndedAndRest(Lines(stream));
    PayloadsAreEndedAndRest(Lines(WithCR(stream)));
  }

  /** A frame whose lines end in `eol`. */
  function FrameWith(eol: Bytes, name: Bytes, data: Bytes): Bytes {
    (if name == [] then [] else EVENT_FIELD + name + eol) + (DATA_FIELD + [SPACE] + data + eol) + eol
  }

  function WireWith(eol: Bytes, frames: seq<(Bytes, Bytes)>): Bytes {
    if frames == [] then []
    else WireWith(eol, frames[..|frames| - 1]) + FrameWith(eol, frames[|frames| - 1].0, frames[|frames| - 1].1)
  }

  lemma LineWithCR(line: Bytes)
    requires LF !in line
    ensures WithCR(line + [LF]) == line + [CR, LF]
  {
    WithCRConcat(line, [LF]);
    NoLineEnds(line);
    OneLineEnd();
  }

  lemma FrameIsWithCR(name: Bytes, data: Bytes)
    requires Plain(name) && Plain(data)
    ensures FrameWith([CR, LF], name, data) == WithCR(Frame(name, data)) && CR !in Frame(name, data)
  {
    hide WithCR;
    var first := if name == [] then [] else EVENT_FIELD + name + [LF];
    var second := DATA_FIELD + [SPACE] + data + [LF];
    WithCRConcat(first + second, [LF]);
    WithCRConcat(first, second);
    LineWithCR(DATA_FIELD + [SPACE] + data);
    LineWithCR(EVENT_FIELD + name);
    OneLineEnd();
  }

  lemma {:induction false} WireIsWithCR(frames: seq<(Bytes, Bytes)>)
    requires forall f :: f in frames ==> Plain(f.0) && Plain(f.1)
    ensures WireWith([CR, LF], frames) == WithCR(Wire(frames)) && CR !in Wire(frames)
  {
    if frames == [] {
      OneLineEnd();
    } else {
      var init, f := frames[..|frames| - 1], frames[|frames| - 1];
      assert f in frames && forall g :: g in init ==> g in frames;
      WireIsWithCR(init);
      hide FrameWith, Frame;
      FrameIsWithCR(f.0, f.1);
      WithCRConcat(Wire(init), Frame(f.0, f.1));
    }
  }

  /** Frames whose lines end in CR LF read back too. */
  lemma CRLFRoundTrip(frames: seq<(Bytes, Bytes)>)
    requires forall f :: f in frames ==> Plain(f.0) && Plain(f.1)
    ensures Spec(WireWith([CR, LF], frames)) == DataParts(frames)
  {
    WireIsWithCR(frames);
    LineEndsDoNotMatter(Wire(frames));
    WireRoundTrip(frames);
  }

  // ---------- payloads with line breaks ----------

  /** A text's lines, at least one. */
  function TextLines(text: Bytes): (lines: seq<Bytes>)
    ensures lines != [] && forall i :: 0 <= i < |lines| ==> LF !in lines[i] && (CR !in text ==> CR !in lines[i])
    decreases |text|
  {
    var i := IndexOfLF(text);
    if i < |text| then [text[..i]] + TextLines(text[i + 1..]) else [text]
  }

  lemma JoinFirst(first: Bytes, rest: seq<Bytes>)
    requires rest != []
    ensures Join([first] + rest) == first + [LF] + Join(rest)
  {
    assert ([first] + rest)[1..] == rest;
  }

  lemma {:induction false} JoinedLines(text: Bytes)
    ensures Join(TextLines(text)) == text
    decreases |text|
  {
    hide Join;
    var i := IndexOfLF(text);
    if i < |text| {
      JoinedLines(text[i + 1..]);
      JoinFirst(text[..i], TextLines(text[i + 1..]));
      SplitAt(text, i);
    } else {
      JoinOne(text);
    }
  }

  /** One data line for each line, with or without the space after the colon. */
  function DataBlock(lines: seq<Bytes>, spaced: bool): Bytes {
    if lines == [] then []
    else DataBlock(lines[..|lines| - 1], spaced) + (DATA_FIELD + (if spaced then [SPACE] else []) + lines[|lines| - 1]) + [LF]
  }

  function Encoded(texts: seq<Bytes>, spaced: bool): Bytes {
    if texts == [] then []
    else Encoded(texts[..|texts| - 1], spaced) + DataBlock(TextLines(texts[|texts| - 1]), spaced) + [] + [LF]
  }

  function Delivered(texts: seq<Bytes>): seq<Bytes> {
    if texts == [] then []
    else Delivered(texts[..|texts| - 1]) + if texts[|texts| - 1] == DONE_MARKER then [] else [texts[|texts| - 1]]
  }

  /** Without the space a line must not begin with one. */
  predicate Writable(lines: seq<Bytes>, spaced: bool) {
    forall i :: 0 <= i < |lines| ==> LF !in lines[i] && CR !in lines[i] && (spaced || lines[i] == [] || lines[i][0] != SPACE)
  }

  lemma DataLineIs(data: Bytes, spaced: bool)
    requires CR !in data && (spaced || data == [] || data[0] != SPACE)
    ensures var line := DATA_FIELD + (if spaced then [SPACE] else []) + data;
            Trim(line) != [] && DataLines([line]) == [data]
  {
    if spaced {
      DataLineCarries(data);
    } else {
      var line := DATA_FIELD + [] + data;
      assert line[|line| - 1] != CR && line[|DATA_FIELD|..] == data;
    }
  }

  lemma {:induction false} BlockFollows(stream: Bytes, payloads: seq<Bytes>, lines: seq<Bytes>, spaced: bool)
    requires At(stream, payloads, []) && Writable(lines, spaced)
    ensures At(stream + DataBlock(lines, spaced), payloads, lines)
  {
    hide At;
    if lines == [] {
      assert stream + [] == stream;
    } else {
      var init, last := lines[..|lines| - 1], lines[|lines| - 1];
      BlockFollows(stream, payloads, init, spaced);
      DataLineIs(last, spaced);
      var line := DATA_FIELD + (if spaced then [SPACE] else []) + last;
      LineFollows(stream + DataBlock(init, spaced), payloads, init, line);
      SnocIs(init, last, lines);
      Associate(stream, DataBlock(init, spaced) + line, [LF]);
      Associate(stream, DataBlock(init, spaced), line);
    }
  }

  lemma TextFollows(stream: Bytes, payloads: seq<Bytes>, text: Bytes, spaced: bool)
    requires At(stream, payloads, []) && Writable(TextLines(text), spaced)
    ensures At(stream + DataBlock(TextLines(text), spaced) + [] + [LF], payloads + if text == DONE_MARKER then [] else [text], [])
  {
    hide At;
    BlockFollows(stream, payloads, TextLines(text), spaced);
    JoinedLines(text);
    LineFollows(stream + DataBlock(TextLines(text), spaced), payloads, TextLines(text), []);
    assert Trim([]) == [];
  }

  lemma {:induction false} TextsFollow(texts: seq<Bytes>, spaced: bool)
    requires forall t :: t in texts ==> Writable(TextLines(t), spaced)
    ensures At(Encoded(texts, spaced), Delivered(texts), [])
  {
    if texts != [] {
      var init, t := texts[..|texts| - 1], texts[|texts| - 1];
      assert forall x :: x in init ==> x in texts;
      TextsFollow(init, spaced);
      hide At, DataBlock, TextLines;
      TextFollows(Encoded(init, spaced), Delivered(init), t, spaced);
    }
  }

  lemma AtTheEnd(stream: Bytes, payloads: seq<Bytes>)
    requires At(stream, payloads, [])
    ensures Spec(stream) == payloads
  {
    LinesAreCompleteAndRest(stream);
    PayloadsAreEndedAndRest(Lines(stream));
    assert Complete(stream).0 + [] == Complete(stream).0;
    assert payloads + [] == payloads;
  }

  /** Any texts written with one data line per line, line breaks and all, read back as they were. */
  lemma TextsReadBack(texts: seq<Bytes>, spaced: bool)
    requires forall t :: t in texts ==> Writable(TextLines(t), spaced)
    ensures Spec(Encoded(texts, spaced)) == Delivered(texts)
  {
    TextsFollow(texts, spaced);
    AtTheEnd(Encoded(texts, spaced), Delivered(texts));
  }

  // ---------- other lines, and the end ----------

  lemma {:induction false} SameAfter(a: seq<Bytes>, b: seq<Bytes>, more: seq<Bytes>)
    requires Ended(a) == Ended(b)
    ensures Ended(a + more) == Ended(b + more)
  {
    hide Ended, DataLines, Trim, Delivery;
    if more == [] {
      assert a + more == a && b + more == b;
    } else {
      var init, last := more[..|more| - 1], more[|more| - 1];
      SameAfter(a, b, init);
      OneMoreLine(a + init, last);
      OneMoreLine(b + init, last);
      SnocIs(init, last, more);
      Associate(a, init, [last]);
      Associate(b, init, [last]);
    }
  }

  lemma CompleteOfFirst(first: Bytes, rest: Bytes)
    requires LF !in first
    ensures Complete(first + [LF] + rest) == ([first] + Complete(rest).0, Complete(rest).1)
  {
    var s := first + [LF] + rest;
    IndexOfLFIs(s, |first|);
    assert s[..|first|] == first && s[|first| + 1..] == rest;
  }

  lemma {:induction false} LinesConcat(a: Bytes, b: Bytes)
    requires Complete(a).1 == []
    ensures Lines(a + b) == Complete(a).0 + Lines(b)
    decreases |a|
  {
    var i := IndexOfLF(a);
    if i < |a| {
      var first, rest := a[..i], a[i + 1..];
      SplitAt(a, i);
      CompleteOfFirst(first, rest);
      LinesConcat(rest, b);
      hide Lines, Complete;
      Associate(first + [LF], rest, b);
      LinesOfFirst(first, rest + b);
      Associate([first], Complete(rest).0, Lines(b));
    } else {
      assert a + b == b;
    }
  }

  /** A line of another field, or a comment, may stand between any two lines and changes nothing. */
  lemma OtherLinesAreIgnored(a: Bytes, line: Bytes, b: Bytes)
    requires Complete(a).1 == [] && LF !in line && CR !in line && line != [] && !(DATA_FIELD <= line)
    ensures Spec(a + (line + [LF]) + b) == Spec(a + b)
  {
    var lines := Complete(a).0;
    EndOfALine(a, line);
    Associate(a, line, [LF]);
    assert [] + line == line;
    LinesConcat(a, b);
    LinesConcat(a + (line + [LF]), b);
    TrimsAlike(line);
    OneMoreLine(lines, line);
    assert DataLines([line]) == [];
    assert Ended(lines).1 + [] == Ended(lines).1;
    SameAfter(lines + [line], lines, Lines(b));
    PayloadsAreEndedAndRest(lines + [line] + Lines(b));
    PayloadsAreEndedAndRest(lines + Lines(b));
  }

  lemma EndingLine(lines: seq<Bytes>)
    ensures Payloads(lines + [[]]) == Payloads(lines)
    ensures Payloads(lines + [[]] + [[]]) == Payloads(lines)
  {
    OneMoreLine(lines, []);
    OneMoreLine(lines + [[]], []);
    PayloadsAreEndedAndRest(lines);
    PayloadsAreEndedAndRest(lines + [[]]);
    PayloadsAreEndedAndRest(lines + [[]] + [[]]);
    assert Trim([]) == [] && Delivery([]) == [];
    hide Ended, Payloads, Delivery;
    var delivered := Ended(lines).0 + Delivery(Ended(lines).1);
    assert delivered + [] == delivered;
  }

  lemma TwoLineEnds(stream: Bytes)
    ensures Complete(stream + [LF] + [LF]) == (Complete(stream).0 + [Complete(stream).1] + [[]], [])
  {
    hide Complete;
    EndOfALine(stream, []);
    EndOfALine(stream + [LF], []);
    Nothing(stream);
    Nothing(stream + [LF]);
    Nothing(Complete(stream).1);
    Nothing([]);
  }

  lemma Nothing(s: Bytes)
    ensures s + [] == s
  {
  }

  /** The end of the stream ends an unfinished line and event, as two line breaks would. */
  lemma EndIsABlankLine(stream: Bytes)
    ensures Spec(stream + [LF] + [LF]) == Spec(stream)
  {
    var (lines, rest) := Complete(stream);
    TwoLineEnds(stream);
    LinesAreCompleteAndRest(stream);
    LinesAreCompleteAndRest(stream + [LF] + [LF]);
    hide Complete, Payloads;
    EndingLine(lines);
    EndingLine(lines + [rest]);
    NoMoreLines(lines);
    NoMoreLines(lines + [rest] + [[]]);
  }

  lemma NoMoreLines(lines: seq<Bytes>)
    ensures lines + [] == lines
  {
  }
}
