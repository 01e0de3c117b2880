/** The candidate sequence for a request: filtered, layered by priority, shuffled by weight inside a layer. */
module Selector {
  import opened Permutations

  datatype Protocol = ChatCompletions | Responses | Messages

  datatype Provider = Anthropic | OtherProvider

  /** An empty model list supports everything. */
  datatype Channel = Channel(id: int, provider: Provider, enabled: bool, priority: int, weight: int, models: seq<string>,
                             protocols: Protocols)

  datatype Protocols = Undeclared | Declared(names: set<Protocol>)

  datatype Member = Member(model: string, priority: int)

  datatype Mode = NativePassthrough | Converted

  datatype Candidate = Candidate(channel: Channel, mode: Mode, upstreamModel: string)

  datatype Entry = Entry(member: Member, channel: Channel, native: bool)

  predicate SupportsModel(ch: Channel, model: string) {
    ch.models == [] || model in ch.models
  }

  predicate IsNative(ch: Channel, p: Protocol) {
    ch.protocols.Declared? && p in ch.protocols.names
  }

  /** A channel that declares protocols but neither chat nor messages cannot take a converted request. */
  predicate Convertible(ch: Channel) {
    ch.protocols.Undeclared? || IsNative(ch, ChatCompletions) || IsNative(ch, Messages)
  }

  predicate Eligible(ch: Channel, inbound: Protocol, model: string) {
    ch.enabled && SupportsModel(ch, model) && (IsNative(ch, inbound) || Convertible(ch))
  }

  // ---------- weighted order ----------

  /** A weight that is not positive counts as 1. */
  function Share(weight: int): nat {
    if weight <= 0 then 1 else weight
  }

  function Total(weights: seq<int>, idx: seq<nat>): nat
    requires InRange(idx, |weights|)
  {
    if idx == [] then 0 else Total(weights, idx[..|idx| - 1]) + Share(weights[idx[|idx| - 1]])
  }

  /** The position the draw `r` selects: the first whose share is not used up by the ones before. */
  function Choice(weights: seq<int>, idx: seq<nat>, r: nat): nat
    requires InRange(idx, |weights|)
  {
    if idx == [] then 0
    else if r < Total(weights, idx[..|idx| - 1]) then Choice(weights, idx[..|idx| - 1], r)
    else |idx| - 1
  }

  lemma {:induction false} TotalGrows(weights: seq<int>, idx: seq<nat>, k: nat)
    requires InRange(idx, |weights|) && k <= |idx|
    ensures InRange(idx[..k], |weights|) && Total(weights, idx[..k]) + (|idx| - k) <= Total(weights, idx)
  {
    if k == |idx| {
      assert idx[..k] == idx;
    } else {
      assert idx[..|idx| - 1][..k] == idx[..k];
      TotalGrows(weights, idx[..|idx| - 1], k);
    }
  }

  /** A draw selects `k` exactly when it falls in the interval of k's share. */
  lemma {:induction false} ChosenByShare(weights: seq<int>, idx: seq<nat>, k: nat, r: nat)
    requires InRange(idx, |weights|) && k < |idx| && r < Total(weights, idx)
    ensures InRange(idx[..k], |weights|)
    ensures Choice(weights, idx, r) == k <==>
            Total(weights, idx[..k]) <= r < Total(weights, idx[..k]) + Share(weights[idx[k]])
  {
    var init := idx[..|idx| - 1];
    if k == |idx| - 1 {
      ChoiceInRange(weights, init, r);
    } else {
      assert init[..k] == idx[..k] && init[k] == idx[k];
      if r < Total(weights, init) {
        ChosenByShare(weights, init, k, r);
      } else {
        TotalGrows(weights, init, k + 1);
        assert init[..k + 1][..k] == init[..k];
      }
    }
  }

  lemma {:induction false} ChoiceInRange(weights: seq<int>, idx: seq<nat>, r: nat)
    requires InRange(idx, |weights|)
    ensures idx != [] ==> Choice(weights, idx, r) < |idx|
  {
    if idx != [] {
      ChoiceInRange(weights, idx[..|idx| - 1], r);
    }
  }

  function Interval(lo: nat, n: nat): (s: set<nat>)
    ensures |s| == n && forall r :: r in s <==> lo <= r < lo + n
  {
    if n == 0 then {} else Interval(lo, n - 1) + {lo + n - 1}
  }

  /** The draws that select position `k`. */
  function DrawsFor(weights: seq<int>, idx: seq<nat>, k: nat): set<nat>
    requires InRange(idx, |weights|)
  {
    set r: nat | r < Total(weights, idx) && Choice(weights, idx, r) == k
  }

  /** In every round exactly max(weight, 1) of the possible draws select a given index. */
  lemma DrawsPerIndex(weights: seq<int>, idx: seq<nat>, k: nat)
    requires InRange(idx, |weights|) && k < |idx|
    ensures |DrawsFor(weights, idx, k)| == Share(weights[idx[k]])
  {
    assert InRange(idx[..k], |weights|);
    var lo, n := Total(weights, idx[..k]), Share(weights[idx[k]]);
    ShareFits(weights, idx, k);
    hide Total, Choice, Share;
    forall r: nat
      ensures r in DrawsFor(weights, idx, k) <==> r in Interval(lo, n)
    {
      if r < Total(weights, idx) {
        ChosenByShare(weights, idx, k, r);
      }
    }
    assert DrawsFor(weights, idx, k) == Interval(lo, n);
  }

  lemma ShareFits(weights: seq<int>, idx: seq<nat>, k: nat)
    requires InRange(idx, |weights|) && k < |idx|
    ensures InRange(idx[..k], |weights|) && Total(weights, idx[..k]) + Share(weights[idx[k]]) <= Total(weights, idx)
  {
    TotalGrows(weights, idx, k + 1);
    assert idx[..k + 1][..k] == idx[..k];
  }

  /** Walk the shares until the draw is used up. */
  method Draw(weights: seq<int>, idx: seq<nat>, r0: nat) returns (pick: nat)
    requires InRange(idx, |weights|) && idx != [] && r0 < Total(weights, idx)
    ensures pick < |idx| && pick == Choice(weights, idx, r0)
  {
    assert idx[..|idx|] == idx;
    var r: int := r0;
    pick := 0;
    for k := 0 to |idx|
      invariant InRange(idx[..k], |weights|) && r == r0 - Total(weights, idx[..k]) && r >= 0
    {
      assert idx[..k + 1][..k] == idx[..k];
      var w := Share(weights[idx[k]]);
      r := r - w;
      if r < 0 {
        pick := k;
        ChosenByShare(weights, idx, k, r0);
        return;
      }
    }
  }

  lemma TotalPositive(weights: seq<int>, idx: seq<nat>)
    requires InRange(idx, |weights|) && idx != []
    ensures Total(weights, idx) > 0
  {
  }

  /** Draw the indices one after the other without putting them back; any draws may come up. */
  method WeightedOrder(weights: seq<int>) returns (out: seq<nat>)
    ensures IsOrder(out, |weights|) && InRange(out, |weights|)
  {
    hide Total, IsOrder;
    var idx := Indices(|weights|);
    out := [];
    assert multiset([]) + multiset(idx) == multiset(idx);
    while |idx| > 0
      invariant InRange(idx, |weights|)
      invariant multiset(out) + multiset(idx) == multiset(Indices(|weights|))
      decreases |idx|
    {
      var total := SumShares(weights, idx);
      TotalPositive(weights, idx);
      var r: nat :| r < total by { assert 0 < total; }
      var pick := Draw(weights, idx, r);
      Moved(out, idx, pick);
      out := out + [idx[pick]];
      idx := Without(idx, pick);
    }
    Drained(out, idx, |weights|);
  }

  method SumShares(weights: seq<int>, idx: seq<nat>) returns (total: nat)
    requires InRange(idx, |weights|)
    ensures total == Total(weights, idx)
  {
    total := 0;
    for k := 0 to |idx|
      invariant InRange(idx[..k], |weights|) && total == Total(weights, idx[..k])
    {
      assert idx[..k + 1][..k] == idx[..k];
      total := total + Share(weights[idx[k]]);
    }
    assert idx[..|idx|] == idx;
  }

  lemma Moved(out: seq<nat>, idx: seq<nat>, pick: nat)
    requires pick < |idx|
    ensures multiset(out + [idx[pick]]) + multiset(Without(idx, pick)) == multiset(out) + multiset(idx)
  {
    SplitOff(idx, pick);
  }

  lemma Drained(out: seq<nat>, idx: seq<nat>, n: nat)
    requires idx == [] && multiset(out) + multiset(idx) == multiset(Indices(n))
    ensures IsOrder(out, n) && InRange(out, n)
  {
    assert multiset(out) + multiset([]) == multiset(out);
    OrderInRange(out, n);
  }

  // ---------- layers ----------

  /** Elements with equal keys are next to each other; each such run is drawn by weight. */
  method ShuffleRuns<T(!new)>(key: T -> Key, weight: T -> int, s: seq<T>) returns (out: seq<T>)
    requires Sorted(key, s)
    ensures multiset(out) == multiset(s) && Sorted(key, out)
  {
    hide Sorted;
    out := [];
    var i := 0;
    NothingSorted(key, s);
    while i < |s|
      invariant i <= |s| && multiset(out) == multiset(s[..i]) && Sorted(key, out)
    {
      var j := i;
      while j < |s| && key(s[j]) == key(s[i])
        invariant i <= j <= |s| && (j == i ==> j < |s|)
        invariant forall k :: i <= k < j ==> key(s[k]) == key(s[i])
      {
        j := j + 1;
      }
      var run := s[i..j];
      var order := WeightedOrder(seq(|run|, k requires 0 <= k < |run| => weight(run[k])));
      var drawn := Pick(run, order);
      PickAll(run, order);
      OneMoreRun(key, s, i, j, out, drawn);
      out := out + drawn;
      i := j;
    }
    assert s[..|s|] == s;
  }

  lemma NothingSorted<T(!new)>(key: T -> Key, s: seq<T>)
    ensures Sorted(key, []) && multiset(s[..0]) == multiset([])
  {
  }

  lemma OneMoreRun<T(!new)>(key: T -> Key, s: seq<T>, i: nat, j: nat, out: seq<T>, drawn: seq<T>)
    requires i < j <= |s| && Sorted(key, s) && Sorted(key, out) && multiset(out) == multiset(s[..i])
    requires multiset(drawn) == multiset(s[i..j])
    requires forall k :: i <= k < j ==> key(s[k]) == key(s[i])
    ensures multiset(out + drawn) == multiset(s[..j]) && Sorted(key, out + drawn)
  {
    assert s[..j] == s[..i] + s[i..j];
    forall a | 0 <= a < |out|
      ensures Leq(key(out[a]), key(s[i]))
    {
      assert out[a] in multiset(out);
      var p := PositionOf(s[..i], out[a]);
      assert s[p] == out[a];
    }
    forall b | 0 <= b < |drawn|
      ensures key(drawn[b]) == key(s[i])
    {
      assert drawn[b] in multiset(drawn);
      var p := PositionOf(s[i..j], drawn[b]);
      assert s[i + p] == drawn[b];
    }
    SortedJoin(key, out, drawn, key(s[i]));
  }

  lemma SortedJoin<T(!new)>(key: T -> Key, a: seq<T>, b: seq<T>, mid: Key)
    requires Sorted(key, a) && (forall i :: 0 <= i < |a| ==> Leq(key(a[i]), mid))
    requires forall i :: 0 <= i < |b| ==> key(b[i]) == mid
    ensures Sorted(key, a + b)
  {
  }

  // ---------- candidates ----------

  function PriorityKey(ch: Channel): Key {
    Key(ch.priority, 0, 0)
  }

  function EntryKey(e: Entry): Key {
    Key(e.member.priority, e.channel.priority, if e.native then 0 else 1)
  }

  /** Native candidates first, then channel priority. */
  function CandidateKey(c: Candidate): Key {
    Key(if c.mode == NativePassthrough then 0 else 1, c.channel.priority, 0)
  }

  function ModeFor(ch: Channel, inbound: Protocol): Mode {
    if IsNative(ch, inbound) then NativePassthrough else Converted
  }

  /** The eligible channels, each with how it would be used. */
  function EligibleCandidates(channels: seq<Channel>, inbound: Protocol, model: string): seq<Candidate> {
    if channels == [] then []
    else
      var ch := channels[|channels| - 1];
      EligibleCandidates(channels[..|channels| - 1], inbound, model) +
      if Eligible(ch, inbound, model) then [Candidate(ch, ModeFor(ch, inbound), model)] else []
  }

  /** The eligible pairs of a member and a channel. */
  function EntriesOf(member: Member, channels: seq<Channel>, inbound: Protocol): seq<Entry> {
    if channels == [] then []
    else
      var ch := channels[|channels| - 1];
      EntriesOf(member, channels[..|channels| - 1], inbound) +
      if Eligible(ch, inbound, member.model) then [Entry(member, ch, IsNative(ch, inbound))] else []
  }

  function EligibleEntries(members: seq<Member>, channels: seq<Channel>, inbound: Protocol): seq<Entry> {
    if members == [] then []
    else EligibleEntries(members[..|members| - 1], channels, inbound) + EntriesOf(members[|members| - 1], channels, inbound)
  }

  function Candidates(chs: seq<Channel>, mode: Mode, model: string): (cs: seq<Candidate>)
    ensures |cs| == |chs| && forall k :: 0 <= k < |chs| ==> cs[k] == Candidate(chs[k], mode, model)
  {
    seq(|chs|, k requires 0 <= k < |chs| => Candidate(chs[k], mode, model))
  }

  function CandidateOf(e: Entry): Candidate {
    Candidate(e.channel, if e.native then NativePassthrough else Converted, e.member.model)
  }

  method ShuffleByWeight(chs: seq<Channel>) returns (out: seq<Channel>)
    ensures multiset(out) == multiset(chs) && Sorted(PriorityKey, out)
  {
    SortSorts(PriorityKey, chs);
    out := ShuffleRuns(PriorityKey, (ch: Channel) => ch.weight, SortStable(PriorityKey, chs));
  }

  lemma CandidatesSnoc(chs: seq<Channel>, ch: Channel, mode: Mode, model: string)
    ensures Candidates(chs + [ch], mode, model) == Candidates(chs, mode, model) + [Candidate(ch, mode, model)]
  {
  }

  lemma {:induction false} CandidatesPermute(a: seq<Channel>, b: seq<Channel>, mode: Mode, model: string)
    requires multiset(a) == multiset(b)
    ensures multiset(Candidates(a, mode, model)) == multiset(Candidates(b, mode, model))
    decreases |a|
  {
    assert |multiset(a)| == |a| && |multiset(b)| == |b|;
    if a != [] {
      var n := |a| - 1;
      assert a[n] in multiset(a);
      var p := PositionOf(b, a[n]);
      SplitOff(a, n);
      SplitOff(b, p);
      CancelOne(multiset(Without(a, n)), multiset(Without(b, p)), a[n]);
      CandidatesPermute(Without(a, n), Without(b, p), mode, model);
      SplitOff(Candidates(a, mode, model), n);
      SplitOff(Candidates(b, mode, model), p);
      assert Without(Candidates(a, mode, model), n) == Candidates(Without(a, n), mode, model);
      assert Without(Candidates(b, mode, model), p) == Candidates(Without(b, p), mode, model);
    } else {
      assert b == [];
    }
  }

  lemma LayersSorted(native: seq<Channel>, converted: seq<Channel>, model: string)
    requires Sorted(PriorityKey, native) && Sorted(PriorityKey, converted)
    ensures Sorted(CandidateKey, Candidates(native, NativePassthrough, model) + Candidates(converted, Converted, model))
  {
    forall i, j | 0 <= i < j < |native|
      ensures native[i].priority <= native[j].priority
    {
      assert Leq(PriorityKey(native[i]), PriorityKey(native[j]));
    }
    forall i, j | 0 <= i < j < |converted|
      ensures converted[i].priority <= converted[j].priority
    {
      assert Leq(PriorityKey(converted[i]), PriorityKey(converted[j]));
    }
  }

  /** Without a group: for any draws the result is a permutation of the eligible channels, native ones first and
      then by priority. */
  method SelectCandidates(channels: seq<Channel>, inbound: Protocol, model: string) returns (out: seq<Candidate>)
    ensures multiset(out) == multiset(EligibleCandidates(channels, inbound, model))
    ensures Sorted(CandidateKey, out)
  {
    hide Sorted, Eligible;
    var native, convertible := [], [];
    for i := 0 to |channels|
      invariant native == EligibleOnly(channels[..i], inbound, model, true)
      invariant convertible == EligibleOnly(channels[..i], inbound, model, false)
    {
      assert channels[..i + 1][..i] == channels[..i];
      var ch := channels[i];
      EligibleMeans(ch, inbound, model);
      if !ch.enabled || !SupportsModel(ch, model) {
        continue;
      }
      if IsNative(ch, inbound) {
        native := native + [ch];
        continue;
      }
      if ch.protocols.Declared? && !IsNative(ch, ChatCompletions) && !IsNative(ch, Messages) {
        continue;
      }
      convertible := convertible + [ch];
    }
    assert channels[..|channels|] == channels;
    var orderedNative := ShuffleByWeight(native);
    var orderedConvertible := ShuffleByWeight(convertible);
    hide EligibleOnly, EligibleCandidates, Candidates;
    CandidatesPermute(orderedNative, native, NativePassthrough, model);
    CandidatesPermute(orderedConvertible, convertible, Converted, model);
    NativeAndConverted(channels, inbound, model);
    LayersSorted(orderedNative, orderedConvertible, model);
    out := Candidates(orderedNative, NativePassthrough, model) + Candidates(orderedConvertible, Converted, model);
  }

  /** The eligible channels that are native, or those that are not. */
  function EligibleOnly(channels: seq<Channel>, inbound: Protocol, model: string, native: bool): seq<Channel> {
    if channels == [] then []
    else
      var ch := channels[|channels| - 1];
      var before := EligibleOnly(channels[..|channels| - 1], inbound, model, native);
      if Eligible(ch, inbound, model) && IsNative(ch, inbound) == native then before + [ch] else before
  }

  lemma {:induction false} NativeAndConverted(channels: seq<Channel>, inbound: Protocol, model: string)
    ensures multiset(Candidates(EligibleOnly(channels, inbound, model, true), NativePassthrough, model)) +
            multiset(Candidates(EligibleOnly(channels, inbound, model, false), Converted, model)) ==
            multiset(EligibleCandidates(channels, inbound, model))
  {
    hide Eligible, IsNative, Candidates;
    if channels == [] {
      NoCandidates(model);
    } else {
      var init, ch := channels[..|channels| - 1], channels[|channels| - 1];
      NativeAndConverted(init, inbound, model);
      CandidatesSnoc(EligibleOnly(init, inbound, model, true), ch, NativePassthrough, model);
      CandidatesSnoc(EligibleOnly(init, inbound, model, false), ch, Converted, model);
    }
  }

  lemma NoCandidates(model: string)
    ensures Candidates([], NativePassthrough, model) == [] && Candidates([], Converted, model) == []
  {
  }

  lemma EligibleMeans(ch: Channel, inbound: Protocol, model: string)
    ensures Eligible(ch, inbound, model) <==>
            ch.enabled && SupportsModel(ch, model) &&
            (IsNative(ch, inbound) || !(ch.protocols.Declared? && !IsNative(ch, ChatCompletions) && !IsNative(ch, Messages)))
  {
  }

  method MemberEntries(member: Member, channels: seq<Channel>, inbound: Protocol) returns (entries: seq<Entry>)
    ensures entries == EntriesOf(member, channels, inbound)
  {
    hide Eligible;
    entries := [];
    for i := 0 to |channels|
      invariant entries == EntriesOf(member, channels[..i], inbound)
    {
      assert channels[..i + 1][..i] == channels[..i];
      var ch := channels[i];
      EligibleMeans(ch, inbound, member.model);
      if !ch.enabled || !SupportsModel(ch, member.model) {
        continue;
      }
      var native := IsNative(ch, inbound);
      if !native && ch.protocols.Declared? && !IsNative(ch, ChatCompletions) && !IsNative(ch, Messages) {
        continue;
      }
      entries := entries + [Entry(member, ch, native)];
    }
    assert channels[..|channels|] == channels;
  }

  /** With a group: a permutation of the eligible pairs, by member priority, channel priority, native first;
      `chosen` are the pairs behind the candidates. */
  method SelectGroupCandidates(channels: seq<Channel>, inbound: Protocol, members: seq<Member>)
    returns (out: seq<Candidate>, chosen: seq<Entry>)
    ensures multiset(chosen) == multiset(EligibleEntries(members, channels, inbound)) && Sorted(EntryKey, chosen)
    ensures |out| == |chosen| && forall k :: 0 <= k < |out| ==> out[k] == CandidateOf(chosen[k])
  {
    hide Sorted, Eligible;
    var entries := [];
    for m := 0 to |members|
      invariant entries == EligibleEntries(members[..m], channels, inbound)
    {
      assert members[..m + 1][..m] == members[..m];
      var more := MemberEntries(members[m], channels, inbound);
      entries := entries + more;
    }
    assert members[..|members|] == members;
    SortSorts(EntryKey, entries);
    var drawn := ShuffleRuns(EntryKey, (e: Entry) => e.channel.weight, SortStable(EntryKey, entries));
    chosen := drawn;
    out := seq(|drawn|, k requires 0 <= k < |drawn| => CandidateOf(drawn[k]));
  }
}
