/** What the three converters share: the arguments of a call, the ids they invent, and the finish reasons they show. */
module StreamLaws {
  import opened Common
  import opened Folds
  import opened Upstream
  import opened Meaning
  import Chats = ChatStream
  import Laws = UpstreamLaws
  import Msgs = MessagesStream
  import Resp = ResponsesStream

  // ---------- arguments over a whole stream ----------

  /** All tool-call deltas of a stream of chat chunks. */
  function DeltasOf(ps: seq<Payload>): seq<ToolCallDelta> {
    if ps == [] then []
    else DeltasOf(ps[..|ps| - 1]) + if ps[|ps| - 1].Chunk? then Laws.Deltas(ps[|ps| - 1].choices) else []
  }

  lemma NothingCarries(key: string, index: int)
    ensures Laws.ArgsOfKey([], key) == "" && Concat(Map(Laws.ArgumentsAt(index), [])) == ""
  {
  }

  lemma {:induction false} StreamArguments(ps: seq<Payload>, index: int)
    requires forall i :: 0 <= i < |ps| ==> !Laws.IsEvent(ps[i])
    ensures Laws.ArgsOfKey(EventsOf(ps), IntKey(Some(index))) == Concat(Map(Laws.ArgumentsAt(index), DeltasOf(ps)))
  {
    hide Concat, Map, IntKey, ToolEvents;
    var key := IntKey(Some(index));
    NothingCarries(key, index);
    if ps != [] {
      var init, p := ps[..|ps| - 1], ps[|ps| - 1];
      StreamArguments(init, index);
      ConcatMap(Laws.FragmentOf(key), EventsOf(init), ToolEvents(p));
      if p.Chunk? {
        Laws.ChunkArgumentsByIndex(p, index);
        ConcatMap(Laws.ArgumentsAt(index), DeltasOf(init), Laws.Deltas(p.choices));
      } else {
        NoEventsOf(p);
        assert DeltasOf(ps) == DeltasOf(init);
      }
    }
  }

  lemma NoEventsOf(p: Payload)
    requires p.Garbage?
    ensures ToolEvents(p) == []
  {
  }

  /** No fragment comes before the announcement of its call. */
  predicate AnnouncedFirst(evs: seq<ToolEvent>, key: string) {
    forall i :: 0 <= i < |evs| && evs[i].Args? && evs[i].key == key ==> exists j :: 0 <= j < i && evs[j].Start? && evs[j].key == key
  }

  lemma {:induction false} AnnouncesExactly(evs: seq<ToolEvent>, key: string)
    ensures Announces(Announced(evs), key) <==> exists j :: 0 <= j < |evs| && evs[j].Start? && evs[j].key == key
  {
    if evs != [] {
      var init, e := evs[..|evs| - 1], evs[|evs| - 1];
      AnnouncesExactly(init, key);
      AnnouncesSnoc(Announced(init), Announcement(e.key, if e.Start? then e.id else "", if e.Start? then e.name else ""), key);
      hide Announces;
      if j :| 0 <= j < |evs| && evs[j].Start? && evs[j].key == key {
        assert j < |init| ==> init[j] == evs[j];
      }
    }
  }

  lemma AnnouncesSnoc(starts: seq<Announcement>, a: Announcement, key: string)
    ensures Announces(starts + [a], key) <==> Announces(starts, key) || a.key == key
  {
    assert (starts + [a])[|starts|] == a;
    if Announces(starts, key) {
      var i :| 0 <= i < |starts| && starts[i].key == key;
      assert (starts + [a])[i].key == key;
    }
  }

  lemma AnnouncedFirstOfFront(evs: seq<ToolEvent>, key: string)
    requires evs != [] && AnnouncedFirst(evs, key)
    ensures AnnouncedFirst(evs[..|evs| - 1], key)
    ensures var e := evs[|evs| - 1];
            e.Args? && e.key == key ==> Announces(Announced(evs[..|evs| - 1]), key)
  {
    hide Announces, Announced;
    var init := evs[..|evs| - 1];
    assert forall i :: 0 <= i < |init| ==> init[i] == evs[i];
    AnnouncesExactly(init, key);
  }

  lemma OneMoreFragment(evs: seq<ToolEvent>, key: string)
    requires evs != []
    ensures var init, e := evs[..|evs| - 1], evs[|evs| - 1];
            Fragments(evs, key) ==
            if Announces(Announced(init), key) then Fragments(init, key) + (if e.Args? && e.key == key then e.args else "") else ""
  {
    hide Announces, Announced;
  }

  lemma OneMoreArgument(evs: seq<ToolEvent>, key: string)
    requires evs != []
    ensures var init, e := evs[..|evs| - 1], evs[|evs| - 1];
            Laws.ArgsOfKey(evs, key) == Laws.ArgsOfKey(init, key) + if e.Args? && e.key == key then e.args else ""
  {
    hide Concat, Map;
    var init, e := evs[..|evs| - 1], evs[|evs| - 1];
    ConcatMap(Laws.FragmentOf(key), init, [e]);
    ConcatMapOne(Laws.FragmentOf(key), e);
    assert init + [e] == evs;
  }

  /** Then the call has all of them. */
  lemma {:induction false} FragmentsAreAll(evs: seq<ToolEvent>, key: string)
    requires AnnouncedFirst(evs, key)
    ensures Fragments(evs, key) == Laws.ArgsOfKey(evs, key)
  {
    hide *;
    if evs == [] {
      NothingCarries(key, 0);
      NoFragments(key);
    } else {
      AnnouncedFirstOfFront(evs, key);
      FragmentsAreAll(evs[..|evs| - 1], key);
      OneMoreFragment(evs, key);
      OneMoreArgument(evs, key);
    }
  }

  lemma NoFragments(key: string)
    ensures Fragments([], key) == ""
  {
  }

  /** A call of a stream of chat chunks has the arguments of all deltas with its index, provided the first of them announces it. */
  lemma CallArgumentsAreTheDeltas(ps: seq<Payload>, index: int)
    requires (forall i :: 0 <= i < |ps| ==> !Laws.IsEvent(ps[i])) && AnnouncedFirst(EventsOf(ps), IntKey(Some(index)))
    ensures Fragments(EventsOf(ps), IntKey(Some(index))) == Concat(Map(Laws.ArgumentsAt(index), DeltasOf(ps)))
  {
    StreamArguments(ps, index);
    FragmentsAreAll(EventsOf(ps), IntKey(Some(index)));
  }

  // ---------- ids ----------

  lemma NumbersDiffer(prefix: string, i: nat, j: nat)
    ensures prefix + FormatNat(i) == prefix + FormatNat(j) <==> i == j
  {
    Laws.NumbersAreDecimal(i);
    Laws.NumbersAreDecimal(j);
    hide *;
    Laws.AfterPrefix(prefix, FormatNat(i), FormatNat(j));
  }

  /** An announced id is kept; the ids invented for calls without one differ from call to call. */
  lemma InventedIdsDiffer(c: Client, i: nat, j: nat, id: string)
    ensures id != "" ==> CallId(c, i, id) == id
    ensures CallId(c, i, "") == CallId(c, j, "") <==> i == j
  {
    hide FormatNat;
    NumbersDiffer("call_", i + 1, j + 1);
    NumbersDiffer("toolu_", i + 1, j + 1);
    NumbersDiffer("fc_", i, j);
  }

  /** The invented ids count calls from one, and items from zero. */
  lemma FirstInventedIds()
    ensures CallId(Chat, 0, "") == "call_1" && CallId(Messages, 0, "") == "toolu_1" && CallId(Responses, 0, "") == "fc_0"
    ensures CallId(Chat, 9, "") == "call_10" && CallId(Messages, 9, "") == "toolu_10" && CallId(Responses, 10, "") == "fc_10"
  {
    assert FormatNat(0) == "0" && FormatNat(1) == "1";
    assert FormatNat(10) == FormatNat(1) + "0";
  }

  // ---------- finish reasons ----------

  /** The upstream ran into its token limit, in the words of any protocol. */
  predicate TooLong(finish: string) {
    finish == "length" || finish == "max_tokens"
  }

  predicate CalledTools(finish: string) {
    finish == "tool_calls" || finish == "tool_use" || finish == "function_call"
  }

  predicate PlainStop(finish: string) {
    finish == "" || finish == "stop" || finish == "end_turn" || finish == "stop_sequence"
  }

  /** What each client is told: the limit whenever the upstream hit it; calls when it says so, or made some and stopped; other
      reasons reach chat clients only. */
  lemma FinishReasonsShown(finish: string, anyTool: bool)
    ensures Chats.FinishReason(finish, anyTool) == "length" <==> TooLong(finish)
    ensures Chats.FinishReason(finish, anyTool) == "tool_calls" <==> CalledTools(finish) || (anyTool && PlainStop(finish))
    ensures Chats.FinishReason(finish, anyTool) == "stop" <==> !anyTool && PlainStop(finish)
    ensures !TooLong(finish) && !CalledTools(finish) && !PlainStop(finish) ==> Chats.FinishReason(finish, anyTool) == finish
    ensures Msgs.StopReason(finish, anyTool) == "max_tokens" <==> TooLong(finish)
    ensures Msgs.StopReason(finish, anyTool) == "tool_use" <==> !TooLong(finish) && (anyTool || CalledTools(finish))
    ensures Msgs.StopReason(finish, anyTool) == "end_turn" <==> !TooLong(finish) && !anyTool && !CalledTools(finish)
    ensures Resp.FinalStatus(finish) == (if TooLong(finish) then Resp.Incomplete else Resp.Completed)
  {
  }
}
