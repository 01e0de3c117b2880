/** What an upstream stream says, independently of any converter: the whole text, the calls in the
    order of their first announcement, and each call's arguments. Converters are judged against this. */
module Meaning {
  import opened Common
  import opened Upstream

  /** A tool call as a client ends up seeing it. */
  datatype Call = Call(id: string, name: string, args: string)

  /** The first `Start` event of a key. */
  datatype Announcement = Announcement(key: string, id: string, name: string)

  /** The three client protocols invent different ids for a call announced without one. */
  datatype Client = Chat | Messages | Responses

  function Transcript(d: Dialect, ps: seq<Payload>): string {
    if ps == [] then "" else Transcript(d, ps[..|ps| - 1]) + TextOf(d, ps[|ps| - 1])
  }

  function FinishOf(d: Dialect, ps: seq<Payload>): string {
    if ps == [] then "" else FinishAfter(d, FinishOf(d, ps[..|ps| - 1]), ps[|ps| - 1])
  }

  function EventsOf(ps: seq<Payload>): seq<ToolEvent> {
    if ps == [] then [] else EventsOf(ps[..|ps| - 1]) + ToolEvents(ps[|ps| - 1])
  }

  predicate Announces(starts: seq<Announcement>, key: string) {
    exists i :: 0 <= i < |starts| && starts[i].key == key
  }

  predicate DistinctKeys(starts: seq<Announcement>) {
    forall i, j :: 0 <= i < j < |starts| ==> starts[i].key != starts[j].key
  }

  /** The announcements that count: the first `Start` of each key, in order. */
  function Announced(evs: seq<ToolEvent>): (starts: seq<Announcement>)
    ensures DistinctKeys(starts)
  {
    if evs == [] then []
    else
      var e, before := evs[|evs| - 1], Announced(evs[..|evs| - 1]);
      if e.Start? && !Announces(before, e.key) then before + [Announcement(e.key, e.id, e.name)] else before
  }

  /** Everything received for `key` after its first announcement. */
  function Fragments(evs: seq<ToolEvent>, key: string): (args: string)
    ensures !Announces(Announced(evs), key) ==> args == ""
  {
    if evs == [] then ""
    else
      var e, before := evs[|evs| - 1], evs[..|evs| - 1];
      if Announces(Announced(before), key)
      then
        assert Announces(Announced(evs), key) by {
          var i :| 0 <= i < |Announced(before)| && Announced(before)[i].key == key;
          assert Announced(evs)[i].key == key;
        }
        Fragments(before, key) + if e.Args? && e.key == key then e.args else ""
      else ""
  }

  function CallId(c: Client, i: nat, id: string): string {
    if id != "" then id
    else match c
      case Chat => "call_" + FormatNat(i + 1)
      case Messages => "toolu_" + FormatNat(i + 1)
      case Responses => "fc_" + FormatNat(i)
  }

  function CallAt(c: Client, evs: seq<ToolEvent>, i: nat): Call
    requires i < |Announced(evs)|
  {
    var start := Announced(evs)[i];
    Call(CallId(c, i, start.id), start.name, Fragments(evs, start.key))
  }

  /** The calls a stream makes, as client protocol `c` should show them. */
  function CallsOf(c: Client, evs: seq<ToolEvent>): seq<Call> {
    seq(|Announced(evs)|, i requires 0 <= i < |Announced(evs)| => CallAt(c, evs, i))
  }

  function Extend(calls: seq<Call>, at: nat, more: string): (longer: seq<Call>)
    requires at < |calls|
    ensures |longer| == |calls|
  {
    calls[at := calls[at].(args := calls[at].args + more)]
  }

  /** No upstream sends a fragment for an announced call other than the one announced last. */
  predicate NoInterleaving(evs: seq<ToolEvent>) {
    if evs == [] then true
    else
      var e, before := evs[|evs| - 1], evs[..|evs| - 1];
      var starts := Announced(before);
      NoInterleaving(before) &&
      (e.Args? && Announces(starts, e.key) ==> starts[|starts| - 1].key == e.key)
  }

  /** The text received before the payload in which the first call is announced. */
  function TextBeforeCalls(d: Dialect, ps: seq<Payload>): string {
    if Announced(EventsOf(ps)) == [] then Transcript(d, ps)
    else if ps == [] then ""
    else TextBeforeCalls(d, ps[..|ps| - 1])
  }

  /** How many calls are announced when the first text arrives (tool events of a payload come first). */
  function CallsBeforeText(d: Dialect, ps: seq<Payload>): (at: Option<nat>)
    ensures at.Some? ==> at.value <= |Announced(EventsOf(ps))|
  {
    if ps == [] then None
    else
      var earlier := CallsBeforeText(d, ps[..|ps| - 1]);
      AnnouncedGrows(EventsOf(ps[..|ps| - 1]), ToolEvents(ps[|ps| - 1]));
      if earlier.Some? then earlier
      else if TextOf(d, ps[|ps| - 1]) != "" then Some(|Announced(EventsOf(ps))|)
      else None
  }

  /** A converter's key map: the i-th announced key is mapped to i + base, and nothing else is in it. */
  predicate Tracks(m: map<string, nat>, starts: seq<Announcement>, base: nat) {
    && (forall i :: 0 <= i < |starts| ==> starts[i].key in m && m[starts[i].key] == i + base)
    && (forall key :: key in m ==> base <= m[key] < base + |starts| && starts[m[key] - base].key == key)
  }

  /** The text past the cursor `emitted`, as streamConvBase.pending takes it. */
  function Suffix(text: string, emitted: nat): string {
    if |text| <= emitted then "" else text[emitted..]
  }

  // ---------- facts every converter uses ----------

  lemma SuffixIsTheAddition(text: string, more: string)
    ensures Suffix(text + more, |text|) == more
  {
  }

  lemma TracksDecides(m: map<string, nat>, starts: seq<Announcement>, base: nat, key: string)
    requires Tracks(m, starts, base)
    ensures key in m <==> Announces(starts, key)
  {
    if key in m {
      assert starts[m[key] - base].key == key;
    }
  }

  lemma {:induction false} AnnouncedGrows(evs: seq<ToolEvent>, more: seq<ToolEvent>)
    ensures Announced(evs) <= Announced(evs + more)
  {
    if more == [] {
      assert evs + more == evs;
    } else {
      var init := more[..|more| - 1];
      AnnouncedGrows(evs, init);
      assert (evs + more)[..|evs + more| - 1] == evs + init;
    }
  }

  /** A first announcement appends a call without arguments. */
  lemma CallsAfterStart(c: Client, evs: seq<ToolEvent>, e: ToolEvent)
    requires e.Start? && !Announces(Announced(evs), e.key)
    ensures Announced(evs + [e]) == Announced(evs) + [Announcement(e.key, e.id, e.name)]
    ensures CallsOf(c, evs + [e]) == CallsOf(c, evs) + [Call(CallId(c, |CallsOf(c, evs)|, e.id), e.name, "")]
  {
    assert (evs + [e])[..|evs|] == evs;
    forall i | 0 <= i < |Announced(evs)|
      ensures CallAt(c, evs + [e], i) == CallAt(c, evs, i)
    {
      CallBeforeStart(c, evs, e, i);
    }
  }

  lemma CallBeforeStart(c: Client, evs: seq<ToolEvent>, e: ToolEvent, i: nat)
    requires e.Start? && i < |Announced(evs)| && !Announces(Announced(evs), e.key)
    ensures i < |Announced(evs + [e])| && CallAt(c, evs + [e], i) == CallAt(c, evs, i)
  {
    assert (evs + [e])[..|evs|] == evs;
    assert Announced(evs + [e])[i] == Announced(evs)[i];
  }

  /** Announcing a new key maps it to the next position. */
  lemma TracksGrows(m: map<string, nat>, starts: seq<Announcement>, base: nat, a: Announcement)
    requires Tracks(m, starts, base) && a.key !in m
    ensures Tracks(m[a.key := base + |starts|], starts + [a], base)
  {
  }

  /** A repeated announcement or a fragment of an unknown call changes nothing. */
  lemma CallsAfterNothing(c: Client, evs: seq<ToolEvent>, e: ToolEvent)
    requires e.Start? == Announces(Announced(evs), e.key)
    ensures Announced(evs + [e]) == Announced(evs)
    ensures CallsOf(c, evs + [e]) == CallsOf(c, evs)
  {
    assert (evs + [e])[..|evs|] == evs;
    forall i | 0 <= i < |Announced(evs)|
      ensures CallAt(c, evs + [e], i) == CallAt(c, evs, i)
    {
    }
  }

  lemma InterleavingAfter(evs: seq<ToolEvent>, e: ToolEvent)
    ensures NoInterleaving(evs + [e]) <==>
            NoInterleaving(evs) &&
            (e.Args? && Announces(Announced(evs), e.key) ==> Announced(evs)[|Announced(evs)| - 1].key == e.key)
  {
    assert (evs + [e])[..|evs|] == evs;
  }

  lemma FragmentsAfterArgs(evs: seq<ToolEvent>, e: ToolEvent, key: string)
    requires e.Args? && Announces(Announced(evs), key)
    ensures Fragments(evs + [e], key) == Fragments(evs, key) + if e.key == key then e.args else ""
  {
    assert (evs + [e])[..|evs|] == evs;
  }

  /** A fragment extends the call of its own key and no other. */
  lemma CallsAfterArgs(c: Client, evs: seq<ToolEvent>, e: ToolEvent, at: nat)
    requires e.Args? && at < |Announced(evs)| && Announced(evs)[at].key == e.key
    ensures Announced(evs + [e]) == Announced(evs)
    ensures CallsOf(c, evs + [e]) == Extend(CallsOf(c, evs), at, e.args)
  {
    NothingAnnounced(evs, e);
    hide Announced, CallAt;
    forall i | 0 <= i < |Announced(evs)|
      ensures CallAt(c, evs + [e], i) == Extended(CallAt(c, evs, i), i == at, e.args)
    {
      CallAtAfterArgs(c, evs, e, at, i);
    }
  }

  function Extended(call: Call, extend: bool, more: string): Call {
    if extend then call.(args := call.args + more) else call
  }

  lemma CallAtAfterArgs(c: Client, evs: seq<ToolEvent>, e: ToolEvent, at: nat, i: nat)
    requires e.Args? && at < |Announced(evs)| && Announced(evs)[at].key == e.key && i < |Announced(evs)|
    ensures i < |Announced(evs + [e])| && CallAt(c, evs + [e], i) == Extended(CallAt(c, evs, i), i == at, e.args)
  {
    hide Fragments, CallId;
    NothingAnnounced(evs, e);
    var key := Announced(evs)[i].key;
    assert key == e.key <==> i == at;
    FragmentsAfterArgs(evs, e, key);
    NothingMore(Fragments(evs, key));
  }

  lemma NothingMore(s: string)
    ensures s + "" == s
  {
  }

  lemma NothingAnnounced(evs: seq<ToolEvent>, e: ToolEvent)
    requires e.Args?
    ensures Announced(evs + [e]) == Announced(evs)
  {
    assert (evs + [e])[..|evs|] == evs;
  }

  lemma {:induction false} TextBeforeCallsIsPrefix(d: Dialect, ps: seq<Payload>)
    ensures TextBeforeCalls(d, ps) <= Transcript(d, ps)
    ensures Announced(EventsOf(ps)) == [] ==> TextBeforeCalls(d, ps) == Transcript(d, ps)
  {
    if ps != [] && Announced(EventsOf(ps)) != [] {
      TextBeforeCallsIsPrefix(d, ps[..|ps| - 1]);
    }
  }
}
