/** Whom a publish reaches: subscribers of its type and no others, each once. */
module EventBusLaws {
  import opened Common
  import opened EventBus

  // ---------- nobody else ----------

  predicate OwnType(b: Sub) {
    forall i :: 0 <= i < |b.accepted| ==> b.accepted[i].typ == b.typ
  }

  predicate Targeted(p: Publish, subs: seq<Sub>) {
    forall i :: 0 <= i < |p.targets| ==> p.targets[i] < |subs| && subs[p.targets[i]].typ == p.event.typ
  }

  /** A subscriber only has events of its type, and publishes in progress only serve subscribers of theirs. */
  ghost predicate OwnTypesOnly(s: State) {
    && Valid(s)
    && (forall id :: 0 <= id < |s.subs| ==> OwnType(s.subs[id]))
    && forall p :: 0 <= p < |s.publishes| ==> Targeted(s.publishes[p], s.subs)
  }

  lemma SentKeepsOwnType(b: Sub, e: Event)
    requires OwnType(b) && e.typ == b.typ
    ensures OwnType(Sent(b, e)) && Sent(b, e).typ == b.typ
  {
  }

  lemma StillTargeted(p: Publish, subs: seq<Sub>, subs': seq<Sub>)
    requires Targeted(p, subs) && |subs| <= |subs'| && forall id :: 0 <= id < |subs| ==> subs'[id].typ == subs[id].typ
    ensures Targeted(p, subs') && (p.targets != [] ==> Targeted(p.(targets := p.targets[1..], added := false), subs'))
    ensures Targeted(p.(added := true), subs')
  {
  }

  lemma StepKeepsTypes(s: State, step: Step)
    requires OwnTypesOnly(s) && Enabled(s, step)
    ensures |s.subs| <= |Next(s, step).subs|
    ensures forall id :: 0 <= id < |s.subs| ==> Next(s, step).subs[id].typ == s.subs[id].typ
    ensures forall id :: 0 <= id < |Next(s, step).subs| ==> OwnType(Next(s, step).subs[id])
  {
    hide OwnType, Snapshot, Sent;
    assert OwnType(FreshSub(if step.Subscribe? then step.typ else "")) by { FreshIsOwn(if step.Subscribe? then step.typ else ""); }
    if step.Add? || step.Send? {
      assert ValidPublish(s.publishes[step.publish], |s.subs|) && Targeted(s.publishes[step.publish], s.subs);
      var b := s.subs[s.publishes[step.publish].targets[0]];
      SentKeepsOwnType(b, s.publishes[step.publish].event);
      SameEvents(b, b.(pending := b.pending + 1));
    } else if !step.Subscribe? && !step.Begin? {
      var id := if step.Unsubscribe? || step.CloseQuit? || step.Take? || step.Finish? || step.Exit? then step.sub else 0;
      SameEvents(s.subs[id], Next(s, step).subs[id]);
    }
  }

  lemma FreshIsOwn(typ: string)
    ensures OwnType(FreshSub(typ))
  {
  }

  lemma SameEvents(b: Sub, b': Sub)
    requires OwnType(b) && b'.accepted == b.accepted && b'.typ == b.typ
    ensures OwnType(b')
  {
  }

  lemma StepKeepsOwnTypes(s: State, step: Step)
    requires OwnTypesOnly(s) && Enabled(s, step)
    ensures OwnTypesOnly(Next(s, step))
  {
    StepKeepsValid(s, step);
    StepKeepsTypes(s, step);
    var s' := Next(s, step);
    if step.Begin? {
      SnapshotIsTargeted(s, step.event, step.targets);
    }
    hide OwnType, Targeted, Snapshot, Valid;
    forall p | 0 <= p < |s'.publishes|
      ensures Targeted(s'.publishes[p], s'.subs)
    {
      if p < |s.publishes| {
        StillTargeted(s.publishes[p], s.subs, s'.subs);
      }
    }
  }

  lemma SnapshotIsTargeted(s: State, e: Event, targets: seq<nat>)
    requires Snapshot(s, e.typ, targets)
    ensures Targeted(Publish(e, targets, false), s.subs)
  {
    forall i | 0 <= i < |targets|
      ensures targets[i] < |s.subs| && s.subs[targets[i]].typ == e.typ
    {
      assert targets[i] in targets;
    }
  }

  /** In every interleaving a subscriber accepts, and so handles, events of its own type only. */
  lemma {:induction false} SubscribersGetTheirOwnTypes(s: State, steps: seq<Step>, s': State)
    requires OwnTypesOnly(s) && Reaches(s, steps, s')
    ensures OwnTypesOnly(s')
    decreases |steps|
  {
    hide Enabled;
    if steps != [] {
      StepKeepsOwnTypes(s, steps[0]);
      SubscribersGetTheirOwnTypes(Next(s, steps[0]), steps[1..], s');
    }
  }

  // ---------- everybody, once ----------

  /** Publishes that still have the subscriber to serve. */
  function Waiting(ps: seq<Publish>, id: nat): nat {
    if ps == [] then 0 else Waiting(ps[..|ps| - 1], id) + if id in ps[|ps| - 1].targets then 1 else 0
  }

  /** No publish serves a subscriber twice. */
  ghost predicate ServedOnce(s: State) {
    Valid(s) && forall p :: 0 <= p < |s.publishes| ==> Distinct(s.publishes[p].targets)
  }

  predicate Distinct(targets: seq<nat>) {
    forall i, j :: 0 <= i < j < |targets| ==> targets[i] != targets[j]
  }

  /** What was offered to a subscriber or still will be. */
  function Offers(s: State, id: nat): int
    requires id < |s.subs|
  {
    |s.subs[id].accepted| + s.subs[id].dropped + Waiting(s.publishes, id)
  }

  /** The publishes that began with the subscriber in their snapshot. */
  function Begun(steps: seq<Step>, id: nat): nat {
    if steps == [] then 0
    else (if steps[0].Begin? && id in steps[0].targets then 1 else 0) + Begun(steps[1..], id)
  }

  lemma {:induction false} WaitingUpdate(ps: seq<Publish>, i: nat, p: Publish, id: nat)
    requires i < |ps|
    ensures Waiting(ps[i := p], id) == Waiting(ps, id) - (if id in ps[i].targets then 1 else 0) + (if id in p.targets then 1 else 0)
  {
    var n := |ps| - 1;
    if i == n {
      assert ps[i := p][..n] == ps[..n];
    } else {
      assert ps[i := p][..n] == ps[..n][i := p];
      WaitingUpdate(ps[..n], i, p, id);
    }
  }

  lemma WaitingSnoc(ps: seq<Publish>, p: Publish, id: nat)
    ensures Waiting(ps + [p], id) == Waiting(ps, id) + if id in p.targets then 1 else 0
  {
    assert (ps + [p])[..|ps|] == ps;
  }

  lemma Served(targets: seq<nat>, id: nat)
    requires targets != [] && Distinct(targets)
    ensures id in targets[1..] <==> id in targets && id != targets[0]
    ensures Distinct(targets[1..])
  {
    assert targets == [targets[0]] + targets[1..];
  }

  lemma StepServesOnce(s: State, step: Step)
    requires ServedOnce(s) && Enabled(s, step)
    ensures ServedOnce(Next(s, step))
  {
    hide Distinct;
    StepKeepsValid(s, step);
    match step
    case Begin(event, targets) => assert Distinct(targets) by { SnapshotIsDistinct(s, event.typ, targets); }
    case Send(p) =>
      assert Distinct(s.publishes[p].targets);
      Served(s.publishes[p].targets, 0);
    case _ =>
  }

  lemma SnapshotIsDistinct(s: State, typ: string, targets: seq<nat>)
    requires Snapshot(s, typ, targets)
    ensures Distinct(targets)
  {
  }

  lemma StepKeepsOffers(s: State, step: Step, id: nat)
    requires ServedOnce(s) && Enabled(s, step) && id < |s.subs|
    ensures id < |Next(s, step).subs|
    ensures Offers(Next(s, step), id) == Offers(s, id) + if step.Begin? && id in step.targets then 1 else 0
  {
    hide Snapshot, Distinct;
    match step
    case Begin(event, targets) => WaitingSnoc(s.publishes, Publish(event, targets, false), id);
    case Add(p) =>
      assert ValidPublish(s.publishes[p], |s.subs|);
      WaitingUpdate(s.publishes, p, s.publishes[p].(added := true), id);
    case Send(p) =>
      assert ValidPublish(s.publishes[p], |s.subs|);
      assert Distinct(s.publishes[p].targets);
      Served(s.publishes[p].targets, id);
      WaitingUpdate(s.publishes, p, s.publishes[p].(targets := s.publishes[p].targets[1..], added := false), id);
    case _ =>
  }

  /** In every interleaving each publish that begins with a subscriber in its snapshot offers its event to it once: what the
      subscriber accepted, what it dropped and what publishes in progress still owe it add up to those publishes. */
  lemma {:induction false} EveryPublishIsOffered(s: State, steps: seq<Step>, s': State, id: nat)
    requires ServedOnce(s) && Reaches(s, steps, s') && id < |s.subs|
    ensures id < |s'.subs| && Offers(s', id) == Offers(s, id) + Begun(steps, id)
    decreases |steps|
  {
    hide Offers, Enabled;
    if steps != [] {
      StepServesOnce(s, steps[0]);
      StepKeepsOffers(s, steps[0], id);
      EveryPublishIsOffered(Next(s, steps[0]), steps[1..], s', id);
    }
  }

  lemma NothingOffered()
    ensures OwnTypesOnly(INITIAL) && ServedOnce(INITIAL)
  {
  }

  /** A snapshot has a subscriber exactly when it is subscribed to the event's type. */
  lemma SnapshotExactly(s: State, e: Event, targets: seq<nat>, id: nat)
    requires Enabled(s, Begin(e, targets)) && id < |s.subs|
    ensures id in targets <==> s.subs[id].subscribed && s.subs[id].typ == e.typ
  {
  }
}
