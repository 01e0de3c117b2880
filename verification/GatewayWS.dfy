/** The browser's reconnecting socket client as a state machine over sockets, timers and page events. */
module GatewayWS {
  import opened Common

  datatype Status = Connecting | Open | Closed

  /** A socket is dead once close() was called on it or its close event was delivered. */
  datatype Socket = Pending | Live | Dead

  datatype Timer = Reconnect | Watchdog(socket: nat) | Heartbeat

  /** `armed` holds the timers the browser will fire; the client's timer fields may name timers that are not. */
  datatype State = State(ws: Option<nat>, attempts: nat, timer: Option<nat>, connectWatch: Option<nat>, heartbeat: Option<nat>,
                         lastMsgAt: int, status: Status, hadDisconnect: bool, started: bool, stopped: bool,
                         sockets: seq<Socket>, armed: map<nat, Timer>, nextTimer: nat, delays: seq<int>, resyncs: nat)

  datatype Policy = Policy(baseMs: nat, maxMs: nat, deadAfterMs: int)

  const INITIAL := State(None, 0, None, None, None, 0, Closed, false, false, false, [], map[], 0, [], 0)

  function Power2(n: nat): nat {
    if n == 0 then 1 else 2 * Power2(n - 1)
  }

  function Delay(p: Policy, attempts: nat): nat {
    if p.baseMs * Power2(attempts) < p.maxMs then p.baseMs * Power2(attempts) else p.maxMs
  }

  // ---------- the browser ----------

  function AfterSetTimer(s: State, t: Timer): State {
    s.(armed := s.armed[s.nextTimer := t], nextTimer := s.nextTimer + 1)
  }

  /** Clearing a timer that is not armed does nothing. */
  function AfterClearTimer(s: State, id: Option<nat>): State {
    if id.Some? then s.(armed := s.armed - {id.value}) else s
  }

  function AfterCloseSocket(s: State, w: nat): State {
    if w < |s.sockets| then s.(sockets := s.sockets[w := Dead]) else s
  }

  // ---------- the client ----------

  function AfterEmitStatus(s: State, status: Status): State {
    s.(status := status, hadDisconnect := s.hadDisconnect || status == Closed)
  }

  function AfterClearReconnectTimer(s: State): State {
    AfterClearTimer(s, s.timer).(timer := None)
  }

  function AfterDisarmConnectWatchdog(s: State): State {
    AfterClearTimer(s, s.connectWatch).(connectWatch := None)
  }

  function AfterStopHeartbeat(s: State): State {
    AfterClearTimer(s, s.heartbeat).(heartbeat := None)
  }

  function AfterScheduleReconnect(p: Policy, s: State): State {
    var s1 := AfterClearReconnectTimer(s);
    AfterSetTimer(s1, Reconnect).(attempts := s1.attempts + 1, timer := Some(s1.nextTimer), delays := s1.delays + [Delay(p, s1.attempts)])
  }

  function AfterArmConnectWatchdog(s: State, w: nat): State {
    var s1 := AfterDisarmConnectWatchdog(s);
    AfterSetTimer(s1, Watchdog(w)).(connectWatch := Some(s1.nextTimer))
  }

  /** Start a connection; the constructor may throw. */
  function AfterOpenSocket(p: Policy, s: State, ok: bool): State {
    var s1 := AfterEmitStatus(s, Connecting);
    if !ok then AfterScheduleReconnect(p, s1)
    else AfterArmConnectWatchdog(s1.(sockets := s1.sockets + [Pending], ws := Some(|s1.sockets|)), |s1.sockets|)
  }

  function AfterStartHeartbeat(s: State, now: int): State {
    var s1 := AfterStopHeartbeat(s);
    AfterSetTimer(s1, Heartbeat).(lastMsgAt := now, heartbeat := Some(s1.nextTimer))
  }

  function AfterNotifyResync(s: State): State {
    if s.hadDisconnect then s.(hadDisconnect := false, resyncs := s.resyncs + 1) else s
  }

  function AfterOnOpen(s: State, now: int): State {
    AfterNotifyResync(AfterEmitStatus(AfterStartHeartbeat(AfterDisarmConnectWatchdog(s).(attempts := 0, delays := []), now), Open))
  }

  function AfterHandleClose(p: Policy, s: State, w: nat): State {
    if s.ws != Some(w) then s
    else
      var s1 := AfterEmitStatus(AfterStopHeartbeat(AfterDisarmConnectWatchdog(s)).(ws := None), Closed);
      if s1.stopped then s1 else AfterScheduleReconnect(p, s1)
  }

  function AfterTerminate(p: Policy, s: State, w: nat): State {
    if s.ws != Some(w) then s else AfterHandleClose(p, AfterCloseSocket(s, w), w)
  }

  function AfterOnHeartbeatTick(p: Policy, s: State, now: int): State {
    if s.ws.None? || s.status != Open then s
    else if now - s.lastMsgAt > p.deadAfterMs then AfterTerminate(p, s, s.ws.value)
    else s
  }

  function AfterForceReconnect(p: Policy, s: State, ok: bool): State {
    if s.stopped || !s.started || s.status == Open then s
    else
      var s1 := if s.ws.Some? then AfterCloseSocket(s, s.ws.value).(ws := None) else s;
      AfterOpenSocket(p, AfterStopHeartbeat(AfterDisarmConnectWatchdog(AfterClearReconnectTimer(s1))).(attempts := 0, delays := []), ok)
  }

  function AfterOnVisible(p: Policy, s: State, visible: bool, now: int, ok: bool): State {
    if s.stopped || !s.started || !visible then s
    else if s.status == Open then AfterOnHeartbeatTick(p, s, now)
    else AfterForceReconnect(p, s, ok)
  }

  function AfterConnect(p: Policy, s: State, ok: bool): State {
    AfterOpenSocket(p, s.(stopped := false, started := true), ok)
  }

  function AfterClose(s: State): State {
    var s1 := AfterStopHeartbeat(AfterDisarmConnectWatchdog(AfterClearReconnectTimer(s.(stopped := true))));
    if s1.ws.Some? then AfterCloseSocket(s1, s1.ws.value).(ws := None) else s1
  }

  // ---------- events ----------

  datatype Event =
    | Connected(ok: bool)
    | SocketOpened(socket: nat, now: int)
    | SocketClosed(socket: nat)
    | MessageArrived(now: int)
    | TimerFired(id: nat, now: int, ok: bool)
    | BecameVisible(visible: bool, now: int, ok: bool)
    | CameOnline(ok: bool)
    | ClosedByPage

  /** connect() is called once, only a pending socket opens, and only armed timers fire; the rest may happen any time. */
  predicate Possible(s: State, e: Event) {
    match e
    case Connected(_) => !s.started && !s.stopped
    case SocketOpened(w, _) => w < |s.sockets| && s.sockets[w] == Pending
    case SocketClosed(w) => w < |s.sockets|
    case TimerFired(id, _, _) => id in s.armed
    case _ => true
  }

  function AfterFired(p: Policy, s: State, id: nat, now: int, ok: bool): State
    requires id in s.armed
  {
    match s.armed[id]
    case Reconnect => AfterOpenSocket(p, s.(armed := s.armed - {id}), ok)
    case Watchdog(w) => AfterTerminate(p, s.(armed := s.armed - {id}), w)
    case Heartbeat => AfterOnHeartbeatTick(p, s, now)
  }

  function Step(p: Policy, s: State, e: Event): State
    requires Possible(s, e)
  {
    match e
    case Connected(ok) => AfterConnect(p, s, ok)
    case SocketOpened(w, now) => AfterOnOpen(s.(sockets := s.sockets[w := Live]), now)
    case SocketClosed(w) => AfterHandleClose(p, AfterCloseSocket(s, w), w)
    case MessageArrived(now) => s.(lastMsgAt := now)
    case TimerFired(id, now, ok) => AfterFired(p, s, id, now, ok)
    case BecameVisible(visible, now, ok) => AfterOnVisible(p, s, visible, now, ok)
    case CameOnline(ok) => AfterForceReconnect(p, s, ok)
    case ClosedByPage => AfterClose(s)
  }

  // ---------- never stuck ----------

  /** Only the client's current socket can be alive. */
  predicate OneSocket(s: State) {
    && (s.ws.Some? ==> s.ws.value < |s.sockets|)
    && forall w :: 0 <= w < |s.sockets| && s.sockets[w] != Dead ==> s.ws == Some(w)
  }

  predicate IsConnecting(s: State) {
    && s.ws.Some? && s.ws.value < |s.sockets| && s.sockets[s.ws.value] == Pending && s.status == Connecting
    && s.connectWatch.Some? && s.heartbeat.None? && s.armed == map[s.connectWatch.value := Watchdog(s.ws.value)]
  }

  predicate IsOpen(s: State) {
    && s.ws.Some? && s.ws.value < |s.sockets| && s.sockets[s.ws.value] == Live && s.status == Open
    && s.heartbeat.Some? && s.connectWatch.None? && s.armed == map[s.heartbeat.value := Heartbeat]
  }

  predicate IsWaiting(s: State) {
    && s.ws.None? && s.status != Open
    && s.timer.Some? && s.connectWatch.None? && s.heartbeat.None? && s.armed == map[s.timer.value := Reconnect]
  }

  predicate IsIdle(s: State) {
    s.ws.None? && s.armed == map[] && s.connectWatch.None? && s.heartbeat.None?
  }

  /** Timer numbers are never used twice. */
  predicate FreshTimers(s: State) {
    && (s.timer.Some? ==> s.timer.value < s.nextTimer)
    && (s.connectWatch.Some? ==> s.connectWatch.value < s.nextTimer)
    && (s.heartbeat.Some? ==> s.heartbeat.value < s.nextTimer)
    && (s.timer.Some? && s.connectWatch.Some? ==> s.timer != s.connectWatch)
    && (s.timer.Some? && s.heartbeat.Some? ==> s.timer != s.heartbeat)
  }

  /** The delays since the last open or forced reconnect are the backoff's, one per attempt. */
  predicate Backoff(p: Policy, s: State) {
    |s.delays| == s.attempts && forall i :: 0 <= i < |s.delays| ==> s.delays[i] == Delay(p, i)
  }

  predicate Inv(p: Policy, s: State) {
    && OneSocket(s) && FreshTimers(s) && Backoff(p, s)
    && if s.started && !s.stopped then IsConnecting(s) || IsOpen(s) || IsWaiting(s) else IsIdle(s)
  }

  lemma OneKey(m: map<nat, Timer>, k: nat, t: Timer)
    requires m == map[k := t]
    ensures m - {k} == map[] && forall j :: j != k ==> m - {j} == m
  {
  }

  lemma OpenKeepsInv(p: Policy, s: State, ok: bool)
    requires OneSocket(s) && FreshTimers(s) && Backoff(p, s) && IsIdle(s) && s.started && !s.stopped
    ensures Inv(p, AfterOpenSocket(p, s, ok))
  {
    hide Delay;
  }

  lemma ScheduleKeepsInv(p: Policy, s: State)
    requires OneSocket(s) && FreshTimers(s) && Backoff(p, s) && IsIdle(s) && s.started && !s.stopped && s.status != Open
    ensures Inv(p, AfterScheduleReconnect(p, s))
  {
    hide Delay;
  }

  /** Closing the current socket, from whatever state, leaves the reconnect timer as the only one. */
  lemma HandleCloseKeepsInv(p: Policy, s: State, w: nat)
    requires s.ws == Some(w) && w < |s.sockets| && s.started && !s.stopped && FreshTimers(s) && Backoff(p, s)
    requires s.sockets[w] == Dead && forall v :: 0 <= v < |s.sockets| ==> s.sockets[v] == Dead
    requires AfterDisarmConnectWatchdog(s).armed == map[] || AfterStopHeartbeat(s).armed == map[]
    ensures Inv(p, AfterHandleClose(p, s, w)) && IsWaiting(AfterHandleClose(p, s, w))
  {
    hide Delay;
    var s1 := AfterEmitStatus(AfterStopHeartbeat(AfterDisarmConnectWatchdog(s)).(ws := None), Closed);
    ScheduleKeepsInv(p, s1);
  }

  lemma TerminateKeepsInv(p: Policy, s: State, w: nat)
    requires s.ws == Some(w) && OneSocket(s) && s.started && !s.stopped && FreshTimers(s) && Backoff(p, s)
    requires AfterDisarmConnectWatchdog(s).armed == map[] || AfterStopHeartbeat(s).armed == map[]
    ensures Inv(p, AfterTerminate(p, s, w)) && IsWaiting(AfterTerminate(p, s, w))
  {
    HandleCloseKeepsInv(p, AfterCloseSocket(s, w), w);
  }

  lemma ForceKeepsInv(p: Policy, s: State, ok: bool)
    requires Inv(p, s)
    ensures Inv(p, AfterForceReconnect(p, s, ok))
  {
    if s.started && !s.stopped && s.status != Open {
      var s1 := if s.ws.Some? then AfterCloseSocket(s, s.ws.value).(ws := None) else s;
      var s2 := AfterStopHeartbeat(AfterDisarmConnectWatchdog(AfterClearReconnectTimer(s1))).(attempts := 0, delays := []);
      assert IsIdle(s2) by {
        if IsConnecting(s) {
          OneKey(s.armed, s.connectWatch.value, Watchdog(s.ws.value));
        } else {
          OneKey(s.armed, s.timer.value, Reconnect);
        }
      }
      OpenKeepsInv(p, s2, ok);
    }
  }

  lemma TickKeepsInv(p: Policy, s: State, now: int)
    requires Inv(p, s)
    ensures Inv(p, AfterOnHeartbeatTick(p, s, now))
  {
    if s.ws.Some? && s.status == Open && now - s.lastMsgAt > p.deadAfterMs {
      OneKey(s.armed, s.heartbeat.value, Heartbeat);
      TerminateKeepsInv(p, s, s.ws.value);
    }
  }

  lemma FiredKeepsInv(p: Policy, s: State, id: nat, now: int, ok: bool)
    requires Inv(p, s) && id in s.armed
    ensures Inv(p, AfterFired(p, s, id, now, ok))
  {
    OneKey(s.armed, id, s.armed[id]);
    match s.armed[id]
    case Reconnect => OpenKeepsInv(p, s.(armed := s.armed - {id}), ok);
    case Watchdog(w) => TerminateKeepsInv(p, s.(armed := s.armed - {id}), w);
    case Heartbeat => TickKeepsInv(p, s, now);
  }

  lemma OnOpenKeepsInv(p: Policy, s: State, w: nat, now: int)
    requires Inv(p, s) && Possible(s, SocketOpened(w, now))
    ensures Inv(p, Step(p, s, SocketOpened(w, now)))
  {
    OneKey(s.armed, s.connectWatch.value, Watchdog(w));
  }

  lemma CloseKeepsInv(p: Policy, s: State)
    requires Inv(p, s)
    ensures Inv(p, AfterClose(s))
  {
    if IsConnecting(s) {
      OneKey(s.armed, s.connectWatch.value, Watchdog(s.ws.value));
    } else if IsOpen(s) {
      OneKey(s.armed, s.heartbeat.value, Heartbeat);
    } else if IsWaiting(s) {
      OneKey(s.armed, s.timer.value, Reconnect);
    }
  }

  lemma SocketClosedKeepsInv(p: Policy, s: State, w: nat)
    requires Inv(p, s) && w < |s.sockets|
    ensures Inv(p, AfterHandleClose(p, AfterCloseSocket(s, w), w))
  {
    if s.ws == Some(w) && s.started && !s.stopped {
      if IsConnecting(s) {
        OneKey(s.armed, s.connectWatch.value, Watchdog(w));
      } else {
        OneKey(s.armed, s.heartbeat.value, Heartbeat);
      }
      HandleCloseKeepsInv(p, AfterCloseSocket(s, w), w);
    }
  }

  lemma StepKeepsInv(p: Policy, s: State, e: Event)
    requires Inv(p, s) && Possible(s, e)
    ensures Inv(p, Step(p, s, e))
  {
    match e
    case Connected(ok) => OpenKeepsInv(p, s.(stopped := false, started := true), ok);
    case SocketOpened(w, now) => OnOpenKeepsInv(p, s, w, now);
    case SocketClosed(w) => SocketClosedKeepsInv(p, s, w);
    case MessageArrived(_) =>
    case TimerFired(id, now, ok) => FiredKeepsInv(p, s, id, now, ok);
    case BecameVisible(_, now, ok) =>
      TickKeepsInv(p, s, now);
      ForceKeepsInv(p, s, ok);
    case CameOnline(ok) => ForceKeepsInv(p, s, ok);
    case ClosedByPage => CloseKeepsInv(p, s);
  }

  // ---------- runs ----------

  /** Exactly one of the three situations holds. */
  lemma ExactlyOne(p: Policy, s: State)
    requires Inv(p, s) && s.started && !s.stopped
    ensures (IsConnecting(s) && !IsOpen(s) && !IsWaiting(s)) || (!IsConnecting(s) && IsOpen(s) && !IsWaiting(s)) ||
            (!IsConnecting(s) && !IsOpen(s) && IsWaiting(s))
    ensures |s.armed| == 1
  {
    hide Delay;
  }

  function Run(p: Policy, es: seq<Event>): State
    requires PossibleRun(p, es)
    decreases |es|, 1
  {
    if es == [] then INITIAL else Step(p, Run(p, es[..|es| - 1]), es[|es| - 1])
  }

  predicate PossibleRun(p: Policy, es: seq<Event>)
    decreases |es|, 0
  {
    es == [] || (PossibleRun(p, es[..|es| - 1]) && Possible(Run(p, es[..|es| - 1]), es[|es| - 1]))
  }

  /** In every interleaving of socket, timer and page events the client is connecting under a watchdog, open with a
      heartbeat, or waiting for its reconnect timer, with no other timer armed and at most one socket alive. */
  lemma {:induction false} NeverStuck(p: Policy, es: seq<Event>)
    requires PossibleRun(p, es)
    ensures Inv(p, Run(p, es))
    ensures var s := Run(p, es);
            s.started && !s.stopped ==> |s.armed| == 1 && (IsConnecting(s) || IsOpen(s) || IsWaiting(s))
  {
    if es != [] {
      NeverStuck(p, es[..|es| - 1]);
      StepKeepsInv(p, Run(p, es[..|es| - 1]), es[|es| - 1]);
    }
    if Run(p, es).started && !Run(p, es).stopped {
      ExactlyOne(p, Run(p, es));
    }
  }

  lemma Power2Grows(a: nat, b: nat)
    requires a <= b
    ensures 1 <= Power2(a) <= Power2(b)
    decreases b
  {
    if a < b {
      Power2Grows(a, b - 1);
    } else if a > 0 {
      Power2Grows(a - 1, a - 1);
    }
  }

  lemma DelayGrows(p: Policy, a: nat, b: nat)
    requires a <= b
    ensures Delay(p, a) <= Delay(p, b) <= p.maxMs
  {
    Power2Grows(a, b);
    Scale(p.baseMs, Power2(a), Power2(b));
  }

  lemma Scale(k: nat, x: nat, y: nat)
    requires x <= y
    ensures k * x <= k * y
  {
  }

  /** Between opens and forced reconnects the delays never shrink, and they never exceed the cap. */
  lemma DelaysGrowToTheCap(p: Policy, es: seq<Event>, i: nat, j: nat)
    requires PossibleRun(p, es) && i <= j < |Run(p, es).delays|
    ensures Run(p, es).delays[i] <= Run(p, es).delays[j] <= p.maxMs
  {
    NeverStuck(p, es);
    DelayGrows(p, i, j);
  }

  lemma WaitLeadsOn(p: Policy, s: State, id: nat, ok: bool)
    requires Inv(p, s) && s.started && !s.stopped && id in s.armed && IsWaiting(s)
    ensures var s' := AfterOpenSocket(p, s.(armed := s.armed - {id}), ok);
            s.armed[id] == Reconnect && if ok then IsConnecting(s') else IsWaiting(s') && s'.attempts == s.attempts + 1
  {
    hide Delay, Backoff, OneSocket, IsOpen;
    OneKey(s.armed, id, Reconnect);
  }

  /** Each situation's timer, when it fires, leads on: an unanswered handshake is cut off and waits, a wait ends in a
      new handshake, or in another wait when the socket cannot be made, and a silent connection is cut off. */
  lemma TimersLeadOn(p: Policy, s: State, id: nat, now: int, ok: bool)
    requires Inv(p, s) && s.started && !s.stopped && id in s.armed
    ensures var s' := AfterFired(p, s, id, now, ok);
            && (IsConnecting(s) ==> IsWaiting(s'))
            && (IsWaiting(s) ==> if ok then IsConnecting(s') else IsWaiting(s') && s'.attempts == s.attempts + 1)
            && (IsOpen(s) ==> if now - s.lastMsgAt > p.deadAfterMs then IsWaiting(s') else s' == s)
  {
    hide AfterOpenSocket, Delay;
    if IsWaiting(s) {
      WaitLeadsOn(p, s, id, ok);
    } else if IsConnecting(s) {
      OneKey(s.armed, id, s.armed[id]);
      TerminateKeepsInv(p, s.(armed := s.armed - {id}), s.ws.value);
    } else if now - s.lastMsgAt > p.deadAfterMs {
      OneKey(s.armed, id, s.armed[id]);
      TerminateKeepsInv(p, s, s.ws.value);
    }
  }

  lemma StoppedStep(p: Policy, s: State, e: Event)
    requires Inv(p, s) && s.stopped && Possible(s, e)
    ensures var s' := Step(p, s, e);
            s'.stopped && s'.armed == map[] && s'.ws.None? && |s'.sockets| == |s.sockets|
  {
    hide Backoff;
    StepKeepsInv(p, s, e);
  }

  /** Once the page has closed the client, whatever happens arms no timer and opens no socket again. */
  lemma {:induction false} ClosedForGood(p: Policy, es: seq<Event>, n: nat)
    requires n <= |es| && PossibleRun(p, es) && PossibleRun(p, es[..n]) && Run(p, es[..n]).stopped
    ensures var s := Run(p, es);
            s.stopped && s.armed == map[] && s.ws.None? && |s.sockets| == |Run(p, es[..n]).sockets|
  {
    hide Inv, Step, Possible;
    if n == |es| {
      assert es[..n] == es;
      NeverStuck(p, es);
      StoppedIsIdle(p, Run(p, es));
    } else {
      var init := es[..|es| - 1];
      assert init[..n] == es[..n];
      ClosedForGood(p, init, n);
      NeverStuck(p, init);
      StoppedStep(p, Run(p, init), es[|es| - 1]);
    }
  }

  lemma StoppedIsIdle(p: Policy, s: State)
    requires Inv(p, s) && s.stopped
    ensures s.armed == map[] && s.ws.None?
  {
  }

  // ---------- the class ----------

  class Browser {
    var sockets: seq<Socket>
    var armed: map<nat, Timer>
    var nextTimer: nat

    constructor ()
      ensures sockets == [] && armed == map[] && nextTimer == 0
    {
      sockets, armed, nextTimer := [], map[], 0;
    }

    method SetTimeout(t: Timer) returns (id: nat)
      modifies this`armed, this`nextTimer
      ensures id == old(nextTimer) && armed == old(armed)[id := t] && nextTimer == id + 1
    {
      id := nextTimer;
      armed := armed[id := t];
      nextTimer := nextTimer + 1;
    }

    method ClearTimeout(id: nat)
      modifies this`armed
      ensures armed == old(armed) - {id}
    {
      armed := armed - {id};
    }

    method NewWebSocket() returns (w: nat)
      modifies this`sockets
      ensures w == |old(sockets)| && sockets == old(sockets) + [Pending]
    {
      w := |sockets|;
      sockets := sockets + [Pending];
    }

    method CloseSocket(w: nat)
      modifies this`sockets
      ensures sockets == if w < |old(sockets)| then old(sockets)[w := Dead] else old(sockets)
    {
      if w < |sockets| {
        sockets := sockets[w := Dead];
      }
    }
  }

  class GatewayWS {
    const browser: Browser
    const policy: Policy
    var ws: Option<nat>
    var attempts: nat
    var timer: Option<nat>
    var connectWatch: Option<nat>
    var heartbeat: Option<nat>
    var lastMsgAt: int
    var statusValue: Status
    var hadDisconnect: bool
    var started: bool
    var stopped: bool
    var resyncs: nat
    ghost var delays: seq<int>

    ghost function Contents(): State
      reads this, browser
    {
      State(ws, attempts, timer, connectWatch, heartbeat, lastMsgAt, statusValue, hadDisconnect, started, stopped,
            browser.sockets, browser.armed, browser.nextTimer, delays, resyncs)
    }

    constructor (policy: Policy)
      ensures Contents() == INITIAL && this.policy == policy && fresh(browser)
    {
      browser := new Browser();
      this.policy := policy;
      ws, attempts, timer, connectWatch, heartbeat, lastMsgAt := None, 0, None, None, None, 0;
      statusValue, hadDisconnect, started, stopped, resyncs, delays := Closed, false, false, false, 0, [];
    }

    method EmitStatus(status: Status)
      modifies this`statusValue, this`hadDisconnect
      ensures Contents() == AfterEmitStatus(old(Contents()), status)
    {
      statusValue := status;
      if status == Closed {
        hadDisconnect := true;
      }
    }

    method ClearReconnectTimer()
      modifies this`timer, browser`armed
      ensures Contents() == AfterClearReconnectTimer(old(Contents()))
    {
      if timer.Some? {
        browser.ClearTimeout(timer.value);
        timer := None;
      }
    }

    method DisarmConnectWatchdog()
      modifies this`connectWatch, browser`armed
      ensures Contents() == AfterDisarmConnectWatchdog(old(Contents()))
    {
      if connectWatch.Some? {
        browser.ClearTimeout(connectWatch.value);
        connectWatch := None;
      }
    }

    method StopHeartbeat()
      modifies this`heartbeat, browser`armed
      ensures Contents() == AfterStopHeartbeat(old(Contents()))
    {
      if heartbeat.Some? {
        browser.ClearTimeout(heartbeat.value);
        heartbeat := None;
      }
    }

    method ScheduleReconnect()
      modifies this, browser
      ensures Contents() == AfterScheduleReconnect(policy, old(Contents()))
    {
      ClearReconnectTimer();
      ghost var delay := Delay(policy, attempts);
      attempts := attempts + 1;
      delays := delays + [delay];
      var id := browser.SetTimeout(Reconnect);
      timer := Some(id);
    }

    method ArmConnectWatchdog(w: nat)
      modifies this, browser
      ensures Contents() == AfterArmConnectWatchdog(old(Contents()), w)
    {
      DisarmConnectWatchdog();
      var id := browser.SetTimeout(Watchdog(w));
      connectWatch := Some(id);
    }

    method OpenSocket(ok: bool)
      modifies this, browser
      ensures Contents() == AfterOpenSocket(policy, old(Contents()), ok)
    {
      EmitStatus(Connecting);
      if !ok {
        ScheduleReconnect();
        return;
      }
      var w := browser.NewWebSocket();
      ws := Some(w);
      ArmConnectWatchdog(w);
    }

    method StartHeartbeat(now: int)
      modifies this, browser
      ensures Contents() == AfterStartHeartbeat(old(Contents()), now)
    {
      StopHeartbeat();
      lastMsgAt := now;
      var id := browser.SetTimeout(Heartbeat);
      heartbeat := Some(id);
    }

    method OnOpen(now: int)
      modifies this, browser
      ensures Contents() == AfterOnOpen(old(Contents()), now)
    {
      hide AfterDisarmConnectWatchdog, AfterStartHeartbeat;
      DisarmConnectWatchdog();
      attempts, delays := 0, [];
      StartHeartbeat(now);
      EmitStatus(Open);
      if hadDisconnect {
        hadDisconnect := false;
        resyncs := resyncs + 1;
      }
    }

    method HandleClose(w: nat)
      modifies this, browser
      ensures Contents() == AfterHandleClose(policy, old(Contents()), w)
    {
      if ws != Some(w) {
        return;
      }
      DisarmConnectWatchdog();
      StopHeartbeat();
      ws := None;
      EmitStatus(Closed);
      if !stopped {
        ScheduleReconnect();
      }
    }

    method Terminate(w: nat)
      modifies this, browser
      ensures Contents() == AfterTerminate(policy, old(Contents()), w)
    {
      if ws != Some(w) {
        return;
      }
      browser.CloseSocket(w);
      HandleClose(w);
    }

    method OnHeartbeatTick(now: int)
      modifies this, browser
      ensures Contents() == AfterOnHeartbeatTick(policy, old(Contents()), now)
    {
      if ws.None? || statusValue != Open {
        return;
      }
      if now - lastMsgAt > policy.deadAfterMs {
        Terminate(ws.value);
      }
    }

    /** Close the current socket without going through its close handler. */
    method DropSocket()
      modifies this`ws, browser`sockets
      ensures var s := old(Contents());
              Contents() == if s.ws.Some? then AfterCloseSocket(s, s.ws.value).(ws := None) else s
    {
      if ws.Some? {
        var w := ws.value;
        ws := None;
        browser.CloseSocket(w);
      }
    }

    method ForceReconnect(ok: bool)
      modifies this, browser
      ensures Contents() == AfterForceReconnect(policy, old(Contents()), ok)
    {
      hide AfterOpenSocket, AfterClearReconnectTimer, AfterDisarmConnectWatchdog, AfterStopHeartbeat;
      if stopped || !started || statusValue == Open {
        return;
      }
      DropSocket();
      ClearReconnectTimer();
      DisarmConnectWatchdog();
      StopHeartbeat();
      attempts, delays := 0, [];
      OpenSocket(ok);
    }

    method OnVisible(visible: bool, now: int, ok: bool)
      modifies this, browser
      ensures Contents() == AfterOnVisible(policy, old(Contents()), visible, now, ok)
    {
      if stopped || !started || !visible {
        return;
      }
      if statusValue == Open {
        OnHeartbeatTick(now);
      } else {
        ForceReconnect(ok);
      }
    }

    method Connect(ok: bool)
      modifies this, browser
      ensures Contents() == AfterConnect(policy, old(Contents()), ok)
    {
      stopped := false;
      started := true;
      OpenSocket(ok);
    }

    method Close()
      modifies this, browser
      ensures Contents() == AfterClose(old(Contents()))
    {
      hide AfterClearReconnectTimer, AfterDisarmConnectWatchdog, AfterStopHeartbeat;
      stopped := true;
      ClearReconnectTimer();
      DisarmConnectWatchdog();
      StopHeartbeat();
      DropSocket();
    }

    /** Timeouts are gone once they fire; the heartbeat interval stays. */
    method OnTimer(id: nat, now: int, ok: bool)
      requires id in browser.armed
      modifies this, browser
      ensures Contents() == AfterFired(policy, old(Contents()), id, now, ok)
    {
      hide AfterOpenSocket, AfterTerminate, AfterOnHeartbeatTick;
      match browser.armed[id]
      case Reconnect =>
        browser.ClearTimeout(id);
        OpenSocket(ok);
      case Watchdog(w) =>
        browser.ClearTimeout(id);
        Terminate(w);
      case Heartbeat => OnHeartbeatTick(now);
    }

    /** One event of the browser or the page. */
    method On(e: Event)
      requires Possible(Contents(), e) && Inv(policy, Contents())
      modifies this, browser
      ensures Contents() == Step(policy, old(Contents()), e)
      ensures Inv(policy, Contents())
    {
      StepKeepsInv(policy, Contents(), e);
      hide Inv, AfterConnect, AfterOnOpen, AfterHandleClose, AfterOpenSocket, AfterTerminate, AfterOnHeartbeatTick, AfterOnVisible,
        AfterForceReconnect, AfterClose;
      match e
      case Connected(ok) => Connect(ok);
      case SocketOpened(w, now) =>
        browser.sockets := browser.sockets[w := Live];
        OnOpen(now);
      case SocketClosed(w) =>
        browser.CloseSocket(w);
        HandleClose(w);
      case MessageArrived(now) => lastMsgAt := now;
      case TimerFired(id, now, ok) => OnTimer(id, now, ok);
      case BecameVisible(visible, now, ok) => OnVisible(visible, now, ok);
      case CameOnline(ok) => ForceReconnect(ok);
      case ClosedByPage => Close();
    }
  }
}
