/** The in-process event bus: bounded queues, one consumer per subscriber, publishers that never block. */
module EventBus {
  import opened Common

  const QUEUE_SIZE := 1024

  datatype Event = Event(typ: string, payload: int)

  /** `accepted` is every event ever put in the queue, in that order, and `handled` every event the handler
      is done with; `dropped` counts the events that found the queue full. */
  datatype Sub = Sub(typ: string, subscribed: bool, quit: bool, exited: bool, queue: seq<Event>, handling: Option<Event>, pending: int,
                     accepted: seq<Event>, handled: seq<Event>, dropped: nat)

  /** A Publish call in progress: the targets it still has to serve, and whether the first was counted already. */
  datatype Publish = Publish(event: Event, targets: seq<nat>, added: bool)

  datatype State = State(subs: seq<Sub>, publishes: seq<Publish>)

  const INITIAL := State([], [])

  datatype Step =
    | Subscribe(typ: string)
    | Unsubscribe(sub: nat)
    | CloseQuit(sub: nat)
    | Begin(event: Event, targets: seq<nat>)
    | Add(publish: nat)
    | Send(publish: nat)
    | Take(sub: nat)
    | Finish(sub: nat)
    | Exit(sub: nat)

  /** The snapshot of the subscriptions to an event's type, in any order, each once. */
  predicate Snapshot(s: State, typ: string, targets: seq<nat>) {
    && (forall i :: 0 <= i < |targets| ==> targets[i] < |s.subs|)
    && (forall i, j :: 0 <= i < j < |targets| ==> targets[i] != targets[j])
    && forall id :: 0 <= id < |s.subs| ==> (id in targets <==> s.subs[id].subscribed && s.subs[id].typ == typ)
  }

  predicate Enabled(s: State, step: Step) {
    match step
    case Subscribe(_) => true
    case Unsubscribe(id) => id < |s.subs|
    case CloseQuit(id) => id < |s.subs| && !s.subs[id].subscribed
    case Begin(event, targets) => Snapshot(s, event.typ, targets)
    case Add(p) => p < |s.publishes| && s.publishes[p].targets != [] && !s.publishes[p].added
    case Send(p) => p < |s.publishes| && s.publishes[p].targets != [] && s.publishes[p].added
    case Take(id) => id < |s.subs| && !s.subs[id].exited && s.subs[id].handling.None? && s.subs[id].queue != []
    case Finish(id) => id < |s.subs| && s.subs[id].handling.Some?
    case Exit(id) => id < |s.subs| && s.subs[id].quit && !s.subs[id].exited && s.subs[id].handling.None? && s.subs[id].queue == []
  }

  function FreshSub(typ: string): Sub {
    Sub(typ, true, false, false, [], None, 0, [], [], 0)
  }

  function Sent(b: Sub, e: Event): Sub {
    if |b.queue| < QUEUE_SIZE then b.(queue := b.queue + [e], accepted := b.accepted + [e])
    else b.(pending := b.pending - 1, dropped := b.dropped + 1)
  }

  function Next(s: State, step: Step): State
    requires Enabled(s, step) && Valid(s)
  {
    match step
    case Subscribe(typ) => s.(subs := s.subs + [FreshSub(typ)])
    case Unsubscribe(id) => s.(subs := s.subs[id := s.subs[id].(subscribed := false)])
    case CloseQuit(id) => s.(subs := s.subs[id := s.subs[id].(quit := true)])
    case Begin(event, targets) => s.(publishes := s.publishes + [Publish(event, targets, false)])
    case Add(p) =>
      var id := s.publishes[p].targets[0];
      State(s.subs[id := s.subs[id].(pending := s.subs[id].pending + 1)], s.publishes[p := s.publishes[p].(added := true)])
    case Send(p) =>
      var id := s.publishes[p].targets[0];
      State(s.subs[id := Sent(s.subs[id], s.publishes[p].event)],
            s.publishes[p := s.publishes[p].(targets := s.publishes[p].targets[1..], added := false)])
    case Take(id) =>
      var b := s.subs[id];
      s.(subs := s.subs[id := b.(handling := Some(b.queue[0]), queue := b.queue[1..])])
    case Finish(id) =>
      var b := s.subs[id];
      s.(subs := s.subs[id := b.(handling := None, handled := b.handled + [b.handling.value], pending := b.pending - 1)])
    case Exit(id) => s.(subs := s.subs[id := s.subs[id].(exited := true)])
  }

  /** Targets name subscriptions, and a counted publish has a target. */
  predicate Valid(s: State) {
    forall p :: 0 <= p < |s.publishes| ==> ValidPublish(s.publishes[p], |s.subs|)
  }

  predicate ValidPublish(p: Publish, n: nat) {
    (p.added ==> p.targets != []) && forall i :: 0 <= i < |p.targets| ==> p.targets[i] < n
  }

  // ---------- what every run keeps ----------

  predicate Counted(p: Publish, id: nat) {
    p.added && p.targets != [] && p.targets[0] == id
  }

  /** Publishes that have counted the subscriber but not yet offered it their event. */
  function InProgress(ps: seq<Publish>, id: nat): nat {
    if ps == [] then 0 else InProgress(ps[..|ps| - 1], id) + if Counted(ps[|ps| - 1], id) then 1 else 0
  }

  function Handling(b: Sub): seq<Event> {
    if b.handling.Some? then [b.handling.value] else []
  }

  /** Nothing is lost, doubled or reordered between being accepted and being handled, and `pending` counts what is under way. */
  predicate Consistent(b: Sub, inProgress: nat) {
    && b.accepted == b.handled + Handling(b) + b.queue
    && b.pending == |Handling(b)| + |b.queue| + inProgress
    && |b.queue| <= QUEUE_SIZE
  }

  /** A subscriber leaves the bus, then its consumer is told to quit, then the consumer leaves. */
  predicate InOrderOfLeaving(b: Sub) {
    (b.quit ==> !b.subscribed) && (b.exited ==> b.quit && b.handling.None?)
  }

  ghost predicate Inv(s: State) {
    && Valid(s)
    && forall id: nat :: id < |s.subs| ==> InOrderOfLeaving(s.subs[id]) && Consistent(s.subs[id], InProgress(s.publishes, id))
  }

  lemma {:induction false} InProgressUpdate(ps: seq<Publish>, i: nat, p: Publish, id: nat)
    requires i < |ps|
    ensures InProgress(ps[i := p], id) ==
            InProgress(ps, id) - (if Counted(ps[i], id) then 1 else 0) + (if Counted(p, id) then 1 else 0)
  {
    var n := |ps| - 1;
    if i == n {
      assert ps[i := p][..n] == ps[..n];
    } else {
      assert ps[i := p][..n] == ps[..n][i := p];
      InProgressUpdate(ps[..n], i, p, id);
    }
  }

  lemma {:induction false} NoneInProgress(ps: seq<Publish>, id: nat, n: nat)
    requires (forall p :: 0 <= p < |ps| ==> ValidPublish(ps[p], n)) && id >= n
    ensures InProgress(ps, id) == 0
  {
    if ps != [] {
      assert ValidPublish(ps[|ps| - 1], n);
      NoneInProgress(ps[..|ps| - 1], id, n);
    }
  }

  lemma BeginCounts(ps: seq<Publish>, p: Publish, id: nat)
    requires !p.added
    ensures InProgress(ps + [p], id) == InProgress(ps, id)
  {
    assert (ps + [p])[..|ps|] == ps;
  }

  lemma StepKeepsValid(s: State, step: Step)
    requires Valid(s) && Enabled(s, step)
    ensures Valid(Next(s, step))
  {
    var s' := Next(s, step);
    forall p | 0 <= p < |s'.publishes|
      ensures ValidPublish(s'.publishes[p], |s'.subs|)
    {
      if p < |s.publishes| {
        assert ValidPublish(s.publishes[p], |s.subs|);
      }
    }
  }

  lemma SendKeeps(b: Sub, e: Event, n: nat)
    requires Consistent(b, n) && n > 0
    ensures Consistent(Sent(b, e), n - 1)
  {
    assert b.handled + Handling(b) + b.queue + [e] == b.handled + Handling(b) + (b.queue + [e]);
  }

  lemma TakeKeeps(b: Sub, n: nat)
    requires Consistent(b, n) && b.handling.None? && b.queue != []
    ensures Consistent(b.(handling := Some(b.queue[0]), queue := b.queue[1..]), n)
  {
    assert b.queue == [b.queue[0]] + b.queue[1..];
    assert b.handled + [] == b.handled;
  }

  lemma FinishKeeps(b: Sub, n: nat)
    requires Consistent(b, n) && b.handling.Some?
    ensures Consistent(b.(handling := None, handled := b.handled + [b.handling.value], pending := b.pending - 1), n)
  {
    assert b.handled + [b.handling.value] + [] == b.handled + [b.handling.value];
  }

  lemma {:induction false} SomeInProgress(ps: seq<Publish>, i: nat, id: nat)
    requires i < |ps| && Counted(ps[i], id)
    ensures InProgress(ps, id) > 0
  {
    if i < |ps| - 1 {
      SomeInProgress(ps[..|ps| - 1], i, id);
    }
  }

  lemma PublishKeepsInv(s: State, step: Step, id: nat)
    requires Inv(s) && Enabled(s, step) && (step.Add? || step.Send?) && id < |s.subs|
    ensures Consistent(Next(s, step).subs[id], InProgress(Next(s, step).publishes, id))
  {
    var p := s.publishes[step.publish];
    var p' := Next(s, step).publishes[step.publish];
    assert ValidPublish(p, |s.subs|);
    InProgressUpdate(s.publishes, step.publish, p', id);
    if step.Send? && p.targets[0] == id {
      SomeInProgress(s.publishes, step.publish, id);
      SendKeeps(s.subs[id], p.event, InProgress(s.publishes, id));
    }
  }

  lemma StepKeepsOrderOfLeaving(s: State, step: Step, id: nat)
    requires Inv(s) && Enabled(s, step) && id < |Next(s, step).subs|
    ensures InOrderOfLeaving(Next(s, step).subs[id])
  {
    hide Consistent, Snapshot, InProgress;
    if id < |s.subs| {
      assert InOrderOfLeaving(s.subs[id]);
    }
    if step.Add? || step.Send? {
      assert ValidPublish(s.publishes[step.publish], |s.subs|);
    }
  }

  lemma StepKeepsInv(s: State, step: Step)
    requires Inv(s) && Enabled(s, step)
    ensures Inv(Next(s, step))
  {
    hide InOrderOfLeaving;
    StepKeepsValid(s, step);
    var s' := Next(s, step);
    forall id: nat | id < |s'.subs|
      ensures InOrderOfLeaving(s'.subs[id]) && Consistent(s'.subs[id], InProgress(s'.publishes, id))
    {
      StepKeepsOrderOfLeaving(s, step, id);
      match step
      case Subscribe(_) => if id == |s.subs| { NoneInProgress(s.publishes, id, |s.subs|); }
      case Begin(event, targets) => BeginCounts(s.publishes, Publish(event, targets, false), id);
      case Add(_) => PublishKeepsInv(s, step, id);
      case Send(_) => PublishKeepsInv(s, step, id);
      case Take(sub) => if id == sub { TakeKeeps(s.subs[id], InProgress(s.publishes, id)); }
      case Finish(sub) => if id == sub { FinishKeeps(s.subs[id], InProgress(s.publishes, id)); }
      case _ =>
    }
  }

  /** The states some interleaving of publishers, subscribers and consumers leads to. */
  predicate Reaches(s: State, steps: seq<Step>, s': State)
    requires Valid(s)
    decreases |steps|
  {
    if steps == [] then s' == s
    else Enabled(s, steps[0]) && Valid(Next(s, steps[0])) && Reaches(Next(s, steps[0]), steps[1..], s')
  }

  lemma {:induction false} ReachKeepsInv(s: State, steps: seq<Step>, s': State)
    requires Inv(s) && Reaches(s, steps, s')
    ensures Inv(s')
    decreases |steps|
  {
    if steps != [] {
      StepKeepsInv(s, steps[0]);
      ReachKeepsInv(Next(s, steps[0]), steps[1..], s');
    }
  }

  /** In every interleaving: events are handled in the order they were accepted, none twice or skipped; `pending` is
      what was accepted and not handled plus the publishes in progress; so when it is zero everything is handled. */
  lemma HandledInOrder(steps: seq<Step>, s: State, id: nat)
    requires Reaches(INITIAL, steps, s) && id < |s.subs|
    ensures var b := s.subs[id];
            && b.handled <= b.accepted
            && b.pending == |b.accepted| - |b.handled| + InProgress(s.publishes, id)
            && b.pending >= 0
            && (b.pending == 0 ==> b.handled == b.accepted)
  {
    ReachKeepsInv(INITIAL, steps, s);
    assert Consistent(s.subs[id], InProgress(s.publishes, id));
    assert s.subs[id].handled + (Handling(s.subs[id]) + s.subs[id].queue) == s.subs[id].accepted;
  }

  /** An event offered to a subscriber is either accepted, as the newest, or dropped, and dropped exactly when the queue is full. */
  lemma DroppedOnlyWhenFull(s: State, p: nat)
    requires Inv(s) && Enabled(s, Send(p))
    ensures s.publishes[p].targets[0] < |s.subs|
    ensures var id, e := s.publishes[p].targets[0], s.publishes[p].event;
            var b, b' := s.subs[id], Next(s, Send(p)).subs[id];
            if |b.queue| == QUEUE_SIZE then b'.accepted == b.accepted && b'.dropped == b.dropped + 1
            else b'.accepted == b.accepted + [e] && b'.dropped == b.dropped
  {
    var id := s.publishes[p].targets[0];
    assert ValidPublish(s.publishes[p], |s.subs|);
    assert Consistent(s.subs[id], InProgress(s.publishes, id));
  }

  /** An unsubscribed consumer leaves only when everything accepted so far was handled. */
  lemma ExitDrains(s: State, id: nat)
    requires Inv(s) && Enabled(s, Exit(id))
    ensures s.subs[id].handled == s.subs[id].accepted
  {
    assert Consistent(s.subs[id], InProgress(s.publishes, id));
    assert s.subs[id].handled + [] + [] == s.subs[id].handled;
  }

  // ---------- after a consumer has left ----------

  lemma ExitedStep(s: State, step: Step, id: nat)
    requires Inv(s) && Enabled(s, step) && id < |s.subs| && s.subs[id].exited
    ensures Inv(Next(s, step)) && id < |Next(s, step).subs|
    ensures var b := Next(s, step).subs[id];
            b.exited && b.handled == s.subs[id].handled && s.subs[id].queue <= b.queue
  {
    hide Consistent, Snapshot, InProgress;
    StepKeepsInv(s, step);
    if step.Send? {
      assert ValidPublish(s.publishes[step.publish], |s.subs|);
    }
    assert InOrderOfLeaving(s.subs[id]);
  }

  /** After its consumer has left, no run handles anything for a subscriber: what a publish in progress still puts in the
      queue stays there. */
  lemma {:induction false} ExitedHandlesNothing(s: State, steps: seq<Step>, s': State, id: nat)
    requires Inv(s) && Reaches(s, steps, s') && id < |s.subs| && s.subs[id].exited
    ensures id < |s'.subs|
    ensures var b := s'.subs[id];
            b.exited && b.handled == s.subs[id].handled && s.subs[id].queue <= b.queue
    decreases |steps|
  {
    hide Consistent, InOrderOfLeaving, Snapshot, InProgress;
    if steps != [] {
      ExitedStep(s, steps[0], id);
      ExitedHandlesNothing(Next(s, steps[0]), steps[1..], s', id);
    }
  }

  /** No publish in progress still has the subscriber to serve. */
  predicate NotTargeted(s: State, id: nat) {
    forall p :: 0 <= p < |s.publishes| ==> id !in s.publishes[p].targets
  }

  /** Whatever happens from here on, everything accepted for the subscriber is handled. */
  ghost predicate NothingStranded(s: State, id: nat)
    requires Valid(s)
  {
    forall steps, s' :: Reaches(s, steps, s') ==> id < |s'.subs| && s'.subs[id].handled == s'.subs[id].accepted
  }

  /** The consumer has left, and nobody can put anything in its queue any more. */
  predicate Gone(s: State, id: nat) {
    && id < |s.subs| && s.subs[id].exited && !s.subs[id].subscribed && s.subs[id].handling.None?
    && s.subs[id].handled == s.subs[id].accepted && NotTargeted(s, id)
  }

  lemma GoneStays(s: State, step: Step, id: nat)
    requires Valid(s) && Enabled(s, step) && Gone(s, id)
    ensures Valid(Next(s, step)) && Gone(Next(s, step), id)
  {
    StepKeepsValid(s, step);
    if step.Add? || step.Send? {
      assert ValidPublish(s.publishes[step.publish], |s.subs|);
      assert id !in s.publishes[step.publish].targets;
    }
  }

  lemma {:induction false} GoneForGood(s: State, steps: seq<Step>, s': State, id: nat)
    requires Valid(s) && Gone(s, id) && Reaches(s, steps, s')
    ensures id < |s'.subs| && s'.subs[id].handled == s'.subs[id].accepted
    decreases |steps|
  {
    hide NotTargeted;
    if steps != [] {
      GoneStays(s, steps[0], id);
      GoneForGood(Next(s, steps[0]), steps[1..], s', id);
    }
  }

  lemma ReachesBy(s: State, step: Step, rest: seq<Step>, s': State)
    requires Valid(s) && Enabled(s, step) && Valid(Next(s, step)) && Reaches(Next(s, step), rest, s')
    ensures Reaches(s, [step] + rest, s')
  {
    hide Enabled, Valid, Next;
    assert ([step] + rest)[1..] == rest;
  }

  /** The publish `p` serves its targets in turn until it comes to a subscriber whose consumer has left. */
  lemma {:induction false} PublishStrands(s: State, p: nat, id: nat) returns (steps: seq<Step>, s': State)
    requires Inv(s) && id < |s.subs| && s.subs[id].exited && s.subs[id].queue == []
    requires p < |s.publishes| && id in s.publishes[p].targets
    ensures Reaches(s, steps, s') && id < |s'.subs| && s'.subs[id].handled != s'.subs[id].accepted
    decreases |s.publishes[p].targets|, if s.publishes[p].added then 0 else 1
  {
    hide Consistent, InOrderOfLeaving, Snapshot, InProgress, Reaches;
    var step := if s.publishes[p].added then Send(p) else Add(p);
    var next := Next(s, step);
    ServingNext(s, p, id);
    if s.publishes[p].added && s.publishes[p].targets[0] == id {
      Strands(s, p);
      steps, s' := [], next;
      ReachesItself(next);
    } else {
      steps, s' := PublishStrands(next, p, id);
    }
    ReachesBy(s, step, steps, s');
    steps := [step] + steps;
  }

  lemma ReachesItself(s: State)
    requires Valid(s)
    ensures Reaches(s, [], s)
  {
  }

  /** Serving another target leaves the subscriber to be served. */
  lemma ServingNext(s: State, p: nat, id: nat)
    requires Inv(s) && id < |s.subs| && p < |s.publishes| && id in s.publishes[p].targets
    ensures var step := if s.publishes[p].added then Send(p) else Add(p);
            var s' := Next(s, step);
            && Enabled(s, step) && Inv(s') && p < |s'.publishes| && id < |s'.subs| && s'.subs[id].exited == s.subs[id].exited
            && s'.publishes[p].targets == s.publishes[p].targets[if s.publishes[p].added then 1 else 0..]
            && s'.publishes[p].added != s.publishes[p].added
            && (!(s.publishes[p].added && s.publishes[p].targets[0] == id) ==>
                s'.subs[id].queue == s.subs[id].queue && id in s'.publishes[p].targets)
  {
    hide Consistent, InOrderOfLeaving, InProgress;
    assert ValidPublish(s.publishes[p], |s.subs|);
    StepKeepsInv(s, if s.publishes[p].added then Send(p) else Add(p));
  }

  lemma Strands(s: State, p: nat)
    requires Inv(s) && Enabled(s, Send(p)) && s.publishes[p].targets[0] < |s.subs|
    requires s.subs[s.publishes[p].targets[0]].queue == []
    ensures var b := Next(s, Send(p)).subs[s.publishes[p].targets[0]];
            b.handled != b.accepted
  {
    var id := s.publishes[p].targets[0];
    assert ValidPublish(s.publishes[p], |s.subs|);
    assert Consistent(s.subs[id], InProgress(s.publishes, id));
    assert |s.subs[id].accepted| == |s.subs[id].handled| + |Handling(s.subs[id])|;
    assert |Next(s, Send(p)).subs[id].accepted| == |s.subs[id].accepted| + 1;
  }

  /** A consumer that leaves now will have handled everything ever accepted for it, exactly when no publish in progress
      still has it to serve: such a publish may always put its event in the queue nobody reads. */
  lemma NothingIsStrandedExactly(s: State, id: nat)
    requires Inv(s) && Enabled(s, Exit(id))
    ensures Inv(Next(s, Exit(id)))
    ensures NothingStranded(Next(s, Exit(id)), id) <==> NotTargeted(s, id)
  {
    hide Reaches, Snapshot;
    var left := Next(s, Exit(id));
    StepKeepsInv(s, Exit(id));
    if NotTargeted(s, id) {
      ExitDrains(s, id);
      assert InOrderOfLeaving(s.subs[id]);
      assert Gone(left, id);
      forall steps, s' | Reaches(left, steps, s')
        ensures id < |s'.subs| && s'.subs[id].handled == s'.subs[id].accepted
      {
        GoneForGood(left, steps, s', id);
      }
    } else {
      var p: nat :| p < |s.publishes| && id in s.publishes[p].targets;
      var steps, s' := PublishStrands(left, p, id);
    }
  }

  /** Such an event does occur: a publish takes its snapshot, the subscriber unsubscribes, its idle consumer leaves, and
      the publish puts the event in the queue. */
  lemma AnEventIsStranded(e: Event) returns (steps: seq<Step>, s: State)
    ensures Reaches(INITIAL, steps, s) && |s.subs| == 1
    ensures var b := s.subs[0];
            b.exited && b.accepted == [e] && b.handled == [] && b.queue == [e] && b.pending == 1 && s.publishes == [Publish(e, [], false)]
  {
    hide Reaches;
    steps, s := ServedAfterLeaving(e);
    var subscribed := State([FreshSub(e.typ)], []);
    var begun := State([FreshSub(e.typ)], [Publish(e, [0], false)]);
    steps := LeavesUnserved(e, begun, steps, s);
    assert Next(subscribed, Begin(e, [0])) == begun;
    ReachesBy(subscribed, Begin(e, [0]), steps, s);
    steps := [Begin(e, [0])] + steps;
    assert Next(INITIAL, Step.Subscribe(e.typ)) == subscribed;
    ReachesBy(INITIAL, Step.Subscribe(e.typ), steps, s);
    steps := [Step.Subscribe(e.typ)] + steps;
  }

  function Departed(typ: string): Sub {
    FreshSub(typ).(subscribed := false, quit := true, exited := true)
  }

  lemma LeavesUnserved(e: Event, begun: State, rest: seq<Step>, s: State) returns (steps: seq<Step>)
    requires begun == State([FreshSub(e.typ)], [Publish(e, [0], false)])
    requires Reaches(State([Departed(e.typ)], begun.publishes), rest, s)
    ensures Reaches(begun, steps, s)
  {
    hide Reaches;
    var unsubscribed := State([FreshSub(e.typ).(subscribed := false)], begun.publishes);
    var told := State([FreshSub(e.typ).(subscribed := false, quit := true)], begun.publishes);
    assert Next(told, Exit(0)) == State([Departed(e.typ)], begun.publishes);
    ReachesBy(told, Exit(0), rest, s);
    assert Next(unsubscribed, CloseQuit(0)) == told;
    ReachesBy(unsubscribed, CloseQuit(0), [Exit(0)] + rest, s);
    assert Next(begun, Step.Unsubscribe(0)) == unsubscribed;
    steps := [CloseQuit(0)] + ([Exit(0)] + rest);
    ReachesBy(begun, Step.Unsubscribe(0), steps, s);
    steps := [Step.Unsubscribe(0)] + steps;
  }

  lemma ServedAfterLeaving(e: Event) returns (steps: seq<Step>, s: State)
    ensures Reaches(State([Departed(e.typ)], [Publish(e, [0], false)]), steps, s)
    ensures s == State([Departed(e.typ).(queue := [e], pending := 1, accepted := [e])], [Publish(e, [], false)])
  {
    hide Reaches;
    var left := State([Departed(e.typ)], [Publish(e, [0], false)]);
    var counted := State([Departed(e.typ).(pending := 1)], [Publish(e, [0], true)]);
    s := State([Departed(e.typ).(queue := [e], pending := 1, accepted := [e])], [Publish(e, [], false)]);
    ReachesItself(s);
    assert Sent(Departed(e.typ).(pending := 1), e) == s.subs[0];
    assert counted.publishes[0].targets[1..] == [];
    assert Next(counted, Send(0)) == s;
    ReachesBy(counted, Send(0), [], s);
    assert Next(left, Add(0)) == counted;
    steps := [Send(0)] + [];
    ReachesBy(left, Add(0), steps, s);
    steps := [Add(0)] + steps;
  }

  // ---------- the bus ----------

  class Bus {
    var subs: seq<Sub>
    var publishes: seq<Publish>

    ghost function Contents(): State
      reads this
    {
      State(subs, publishes)
    }

    constructor ()
      ensures Contents() == INITIAL
    {
      subs, publishes := [], [];
    }

    method Subscribe(typ: string) returns (id: nat)
      requires Valid(Contents())
      modifies this
      ensures id == |old(subs)| && Contents() == Next(old(Contents()), Step.Subscribe(typ))
    {
      id := |subs|;
      subs := subs + [FreshSub(typ)];
    }

    /** Leave the bus, then tell the consumer. */
    method Unsubscribe(id: nat)
      requires Valid(Contents()) && id < |subs|
      modifies this
      ensures Valid(Next(old(Contents()), Step.Unsubscribe(id)))
      ensures Contents() == Next(Next(old(Contents()), Step.Unsubscribe(id)), CloseQuit(id))
    {
      StepKeepsValid(Contents(), Step.Unsubscribe(id));
      subs := subs[id := subs[id].(subscribed := false)];
      subs := subs[id := subs[id].(quit := true)];
    }

    /** Take the snapshot of the subscriptions to serve. */
    method BeginPublish(event: Event) returns (p: nat)
      requires Valid(Contents())
      modifies this
      ensures p == |old(publishes)| && p < |publishes|
      ensures Enabled(old(Contents()), Begin(event, publishes[p].targets))
      ensures Contents() == Next(old(Contents()), Begin(event, publishes[p].targets))
    {
      var targets: seq<nat> := [];
      for id := 0 to |subs|
        invariant forall i :: 0 <= i < |targets| ==> targets[i] < id
        invariant forall i, j :: 0 <= i < j < |targets| ==> targets[i] != targets[j]
        invariant forall k :: 0 <= k < id ==> (k in targets <==> subs[k].subscribed && subs[k].typ == event.typ)
      {
        if subs[id].subscribed && subs[id].typ == event.typ {
          targets := targets + [id];
        }
      }
      p := |publishes|;
      publishes := publishes + [Publish(event, targets, false)];
    }

    method Count(p: nat)
      requires Valid(Contents()) && Enabled(Contents(), Add(p))
      modifies this
      ensures Contents() == Next(old(Contents()), Add(p))
    {
      assert ValidPublish(publishes[p], |subs|);
      var id := publishes[p].targets[0];
      subs := subs[id := subs[id].(pending := subs[id].pending + 1)];
      publishes := publishes[p := publishes[p].(added := true)];
    }

    /** Put the event in the queue without blocking, or take the count back and drop it. */
    method Offer(p: nat)
      requires Valid(Contents()) && Enabled(Contents(), Send(p))
      modifies this
      ensures Contents() == Next(old(Contents()), Send(p))
    {
      assert ValidPublish(publishes[p], |subs|);
      var id := publishes[p].targets[0];
      var b := subs[id];
      if |b.queue| < QUEUE_SIZE {
        b := b.(queue := b.queue + [publishes[p].event], accepted := b.accepted + [publishes[p].event]);
      } else {
        b := b.(pending := b.pending - 1);
        b := b.(dropped := b.dropped + 1);
      }
      subs := subs[id := b];
      publishes := publishes[p := publishes[p].(targets := publishes[p].targets[1..], added := false)];
    }

    /** One round of a consumer: take the oldest event and run the handler. */
    method Consume(id: nat)
      requires Inv(Contents()) && Enabled(Contents(), Take(id))
      modifies this
      ensures Valid(Next(old(Contents()), Take(id)))
      ensures Contents() == Next(Next(old(Contents()), Take(id)), Finish(id))
      ensures Inv(Contents())
    {
      StepKeepsInv(Contents(), Take(id));
      StepKeepsInv(Next(Contents(), Take(id)), Finish(id));
      var b := subs[id];
      subs := subs[id := b.(handling := Some(b.queue[0]), queue := b.queue[1..])];
      b := subs[id];
      subs := subs[id := b.(handling := None, handled := b.handled + [b.handling.value], pending := b.pending - 1)];
    }
  }
}
