/** The executor's conversion path: upstream bytes, split into payloads, decoded, converted for the client. */
module Pipeline {
  import opened Upstream
  import opened Meaning
  import Chats = ChatStream
  import Sse
  import Msgs = MessagesStream
  import Resp = ResponsesStream

  /** The decoded payloads; `decode` makes garbage of what is not valid JSON. */
  function Decoded(decode: Sse.Bytes -> Payload, payloads: seq<Sse.Bytes>): seq<Payload> {
    if payloads == [] then []
    else Decoded(decode, payloads[..|payloads| - 1]) + [decode(payloads[|payloads| - 1])]
  }

  /** Every payload a whole stream delivers to the converter. */
  function Received(decode: Sse.Bytes -> Payload, chunks: seq<Sse.Bytes>): seq<Payload> {
    Decoded(decode, Sse.Spec(Sse.Concat(chunks)))
  }

  lemma DecodedSnoc(decode: Sse.Bytes -> Payload, ps: seq<Sse.Bytes>, p: Sse.Bytes)
    ensures Decoded(decode, ps + [p]) == Decoded(decode, ps) + [decode(p)]
  {
    assert (ps + [p])[..|ps|] == ps;
  }

  lemma ReceivedIs(decode: Sse.Bytes -> Payload, chunks: seq<Sse.Bytes>)
    ensures Received(decode, chunks) == Decoded(decode, Sse.Spec(Sse.Concat(chunks)))
  {
  }

  lemma ConcatGrows(chunks: seq<Sse.Bytes>, i: nat)
    requires i < |chunks|
    ensures Sse.Concat(chunks[..i + 1]) == Sse.Concat(chunks[..i]) + chunks[i]
  {
    assert chunks[..i + 1][..i] == chunks[..i];
  }

  lemma NoChunks(chunks: seq<Sse.Bytes>)
    ensures Sse.Concat(chunks[..0]) == []
  {
  }

  lemma ResponsesStreamEnds(up: Dialect, ps: seq<Payload>)
    ensures Resp.Stream(up, ps) == Resp.Fed(up, ps).out + Resp.AfterFinalize(Resp.Fed(up, ps).state).out
  {
  }

  lemma ChatStreamEnds(up: Dialect, ps: seq<Payload>)
    ensures Chats.Stream(up, ps) == Chats.Fed(up, ps).out + Chats.AfterFinalize(Chats.Fed(up, ps).state).out
  {
  }

  lemma MessagesStreamEnds(up: Dialect, ps: seq<Payload>)
    ensures Msgs.Stream(up, ps) == Msgs.Fed(up, ps).out + Msgs.AfterFinalize(Msgs.Fed(up, ps).state).out
  {
  }

  // ---------- responses clients ----------

  lemma FedResponses(up: Dialect, ps: seq<Payload>, p: Payload)
    ensures var r := Resp.Fed(up, ps);
            var r' := Resp.AfterFeed(up, r.state, p);
            Resp.Fed(up, ps + [p]) == Resp.Result(r'.state, r.out + r'.out)
  {
    assert (ps + [p])[..|ps|] == ps;
  }

  /** Feed the payloads delivered since `done` of them were fed. */
  method FeedResponses(decode: Sse.Bytes -> Payload, converter: Resp.ResponsesEventConverter, delivered: seq<Sse.Bytes>, done: nat,
                       out0: seq<Resp.Event>)
    returns (out: seq<Resp.Event>)
    requires done <= |delivered|
    requires Resp.Result(converter.Contents(), out0) == Resp.Fed(converter.parser.dialect, Decoded(decode, delivered[..done]))
    modifies converter, converter.parser
    ensures Resp.Result(converter.Contents(), out) == Resp.Fed(converter.parser.dialect, Decoded(decode, delivered))
  {
    hide Resp.AfterFeed, Resp.Fed, Decoded;
    out := out0;
    for i := done to |delivered|
      invariant Resp.Result(converter.Contents(), out) == Resp.Fed(converter.parser.dialect, Decoded(decode, delivered[..i]))
    {
      assert delivered[..i + 1] == delivered[..i] + [delivered[i]];
      DecodedSnoc(decode, delivered[..i], delivered[i]);
      var p := decode(delivered[i]);
      FedResponses(converter.parser.dialect, Decoded(decode, delivered[..i]), p);
      var more := converter.Feed(p);
      out := out + more;
    }
    assert delivered[..|delivered|] == delivered;
  }

  /** However the network cuts the upstream's bytes, the client gets the stream of the whole payload sequence, and a
      strict client ends with the upstream's items as soon as one payload arrived, be it garbage. */
  method ForwardToResponses(decode: Sse.Bytes -> Payload, up: Dialect, chunks: seq<Sse.Bytes>) returns (out: seq<Resp.Event>)
    ensures out == Resp.Stream(up, Received(decode, chunks))
    ensures Received(decode, chunks) != [] ==>
              Resp.ReadAll(Resp.Fresh, Resp.Bodies(out)) ==
              Resp.Closed(Resp.FinalStatus(FinishOf(up, Received(decode, chunks))), Resp.ExpectedOutput(up, Received(decode, chunks)))
  {
    hide *;
    var splitter := new Sse.SSESplitter();
    var converter := new Resp.ResponsesEventConverter(up);
    out := [];
    NothingFed(decode, up);
    NoChunks(chunks);
    for i := 0 to |chunks|
      invariant fresh(splitter) && fresh(converter) && fresh(converter.parser) && converter.parser.dialect == up
      invariant splitter.Valid() && splitter.fed == Sse.Concat(chunks[..i])
      invariant Resp.Result(converter.Contents(), out) == Resp.Fed(up, Decoded(decode, splitter.delivered))
    {
      ConcatGrows(chunks, i);
      ghost var before := splitter.delivered;
      var done := |splitter.delivered|;
      splitter.Write(chunks[i]);
      assert splitter.delivered[..done] == before;
      out := FeedResponses(decode, converter, splitter.delivered, done, out);
    }
    assert chunks[..|chunks|] == chunks;
    ghost var before := splitter.delivered;
    var done := |splitter.delivered|;
    splitter.Flush();
    assert splitter.delivered[..done] == before;
    out := FeedResponses(decode, converter, splitter.delivered, done, out);
    ResponsesStreamEnds(up, Received(decode, chunks));
    ReceivedIs(decode, chunks);
    var last := converter.Finalize();
    out := out + last;
    Resp.StreamConveysTheUpstream(up, Received(decode, chunks));
  }

  lemma NothingFed(decode: Sse.Bytes -> Payload, up: Dialect)
    ensures Resp.Fed(up, Decoded(decode, [])) == Resp.Result(Resp.INITIAL, [])
    ensures Msgs.Fed(up, Decoded(decode, [])) == Msgs.Result(Msgs.INITIAL, [])
    ensures Chats.Fed(up, Decoded(decode, [])) == Chats.Result(Chats.INITIAL, [])
  {
  }

  // ---------- messages clients ----------

  lemma FedMessages(up: Dialect, ps: seq<Payload>, p: Payload)
    ensures var r := Msgs.Fed(up, ps);
            var r' := Msgs.AfterFeed(up, r.state, p);
            Msgs.Fed(up, ps + [p]) == Msgs.Result(r'.state, r.out + r'.out)
  {
    assert (ps + [p])[..|ps|] == ps;
  }

  method FeedMessages(decode: Sse.Bytes -> Payload, converter: Msgs.AnthropicEventConverter, delivered: seq<Sse.Bytes>, done: nat,
                      out0: seq<Msgs.Event>)
    returns (out: seq<Msgs.Event>)
    requires done <= |delivered|
    requires Msgs.Result(converter.Contents(), out0) == Msgs.Fed(converter.parser.dialect, Decoded(decode, delivered[..done]))
    modifies converter, converter.parser
    ensures Msgs.Result(converter.Contents(), out) == Msgs.Fed(converter.parser.dialect, Decoded(decode, delivered))
  {
    hide Msgs.AfterFeed, Msgs.Fed, Decoded;
    out := out0;
    for i := done to |delivered|
      invariant Msgs.Result(converter.Contents(), out) == Msgs.Fed(converter.parser.dialect, Decoded(decode, delivered[..i]))
    {
      assert delivered[..i + 1] == delivered[..i] + [delivered[i]];
      DecodedSnoc(decode, delivered[..i], delivered[i]);
      var p := decode(delivered[i]);
      FedMessages(converter.parser.dialect, Decoded(decode, delivered[..i]), p);
      var more := converter.Feed(p);
      out := out + more;
    }
    assert delivered[..|delivered|] == delivered;
  }

  /** The same for messages clients. A lenient one ends with the text before the first call, the calls and the stop
      reason as soon as one payload arrived; a strict one does when, besides, no fragments interleave. */
  method ForwardToMessages(decode: Sse.Bytes -> Payload, up: Dialect, chunks: seq<Sse.Bytes>) returns (out: seq<Msgs.Event>)
    ensures out == Msgs.Stream(up, Received(decode, chunks))
    ensures forall strict ::
              Msgs.ReadAll(strict, Msgs.Fresh, out) ==
              var ps := Received(decode, chunks);
              if ps == [] || (strict && !NoInterleaving(EventsOf(ps))) then Msgs.Rejected
              else Msgs.Closed(Msgs.Blocks(TextBeforeCalls(up, ps), CallsOf(Messages, EventsOf(ps))),
                               Msgs.StopReason(FinishOf(up, ps), Announced(EventsOf(ps)) != []))
  {
    hide *;
    var splitter := new Sse.SSESplitter();
    var converter := new Msgs.AnthropicEventConverter(up);
    out := [];
    NothingFed(decode, up);
    NoChunks(chunks);
    for i := 0 to |chunks|
      invariant fresh(splitter) && fresh(converter) && fresh(converter.parser) && converter.parser.dialect == up
      invariant splitter.Valid() && splitter.fed == Sse.Concat(chunks[..i])
      invariant Msgs.Result(converter.Contents(), out) == Msgs.Fed(up, Decoded(decode, splitter.delivered))
    {
      ConcatGrows(chunks, i);
      ghost var before := splitter.delivered;
      var done := |splitter.delivered|;
      splitter.Write(chunks[i]);
      assert splitter.delivered[..done] == before;
      out := FeedMessages(decode, converter, splitter.delivered, done, out);
    }
    assert chunks[..|chunks|] == chunks;
    ghost var before := splitter.delivered;
    var done := |splitter.delivered|;
    splitter.Flush();
    assert splitter.delivered[..done] == before;
    out := FeedMessages(decode, converter, splitter.delivered, done, out);
    MessagesStreamEnds(up, Received(decode, chunks));
    ReceivedIs(decode, chunks);
    var last := converter.Finalize();
    out := out + last;
    Msgs.StreamConveysTheUpstream(true, up, Received(decode, chunks));
    Msgs.StreamConveysTheUpstream(false, up, Received(decode, chunks));
  }

  // ---------- chat clients ----------

  lemma FedChat(up: Dialect, ps: seq<Payload>, p: Payload)
    ensures var r := Chats.Fed(up, ps);
            var r' := Chats.AfterFeed(up, r.state, p);
            Chats.Fed(up, ps + [p]) == Chats.Result(r'.state, r.out + r'.out)
  {
    assert (ps + [p])[..|ps|] == ps;
  }

  method FeedChat(decode: Sse.Bytes -> Payload, converter: Chats.ChatChunkConverter, delivered: seq<Sse.Bytes>, done: nat,
                  out0: seq<Chats.Chunk>)
    returns (out: seq<Chats.Chunk>)
    requires done <= |delivered|
    requires Chats.Result(converter.Contents(), out0) == Chats.Fed(converter.parser.dialect, Decoded(decode, delivered[..done]))
    modifies converter, converter.parser
    ensures Chats.Result(converter.Contents(), out) == Chats.Fed(converter.parser.dialect, Decoded(decode, delivered))
  {
    hide Chats.AfterFeed, Chats.Fed, Decoded;
    out := out0;
    for i := done to |delivered|
      invariant Chats.Result(converter.Contents(), out) == Chats.Fed(converter.parser.dialect, Decoded(decode, delivered[..i]))
    {
      assert delivered[..i + 1] == delivered[..i] + [delivered[i]];
      DecodedSnoc(decode, delivered[..i], delivered[i]);
      var p := decode(delivered[i]);
      FedChat(converter.parser.dialect, Decoded(decode, delivered[..i]), p);
      var more := converter.Feed(p);
      out := out + more;
    }
    assert delivered[..|delivered|] == delivered;
  }

  /** The same for chat clients: a strict one ends with the upstream's text, calls and finish reason. */
  method ForwardToChat(decode: Sse.Bytes -> Payload, up: Dialect, chunks: seq<Sse.Bytes>) returns (out: seq<Chats.Chunk>)
    ensures out == Chats.Stream(up, Received(decode, chunks))
    ensures Chats.ReadAll(Chats.Reading("", []), out) ==
            var ps := Received(decode, chunks);
            Chats.Closed(Transcript(up, ps), CallsOf(Chat, EventsOf(ps)),
                         Chats.FinishReason(FinishOf(up, ps), Announced(EventsOf(ps)) != []))
  {
    hide *;
    var splitter := new Sse.SSESplitter();
    var converter := new Chats.ChatChunkConverter(up);
    out := [];
    NothingFed(decode, up);
    NoChunks(chunks);
    for i := 0 to |chunks|
      invariant fresh(splitter) && fresh(converter) && fresh(converter.parser) && converter.parser.dialect == up
      invariant splitter.Valid() && splitter.fed == Sse.Concat(chunks[..i])
      invariant Chats.Result(converter.Contents(), out) == Chats.Fed(up, Decoded(decode, splitter.delivered))
    {
      ConcatGrows(chunks, i);
      ghost var before := splitter.delivered;
      var done := |splitter.delivered|;
      splitter.Write(chunks[i]);
      assert splitter.delivered[..done] == before;
      out := FeedChat(decode, converter, splitter.delivered, done, out);
    }
    assert chunks[..|chunks|] == chunks;
    ghost var before := splitter.delivered;
    var done := |splitter.delivered|;
    splitter.Flush();
    assert splitter.delivered[..done] == before;
    out := FeedChat(decode, converter, splitter.delivered, done, out);
    ChatStreamEnds(up, Received(decode, chunks));
    ReceivedIs(decode, chunks);
    var last := converter.Finalize();
    out := out + last;
    Chats.StreamConveysTheUpstream(up, Received(decode, chunks));
  }
}
