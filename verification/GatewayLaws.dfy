/** What the reconnecting client's steps achieve: doubling delays, reconnects forced by the page, connections kept alive, and
    notices of a reconnect. */
module GatewayLaws {
  import opened Common
  import opened GatewayWS

  /** The first delay is the base, and each next one twice the one before, until the cap. */
  lemma DelaysDouble(p: Policy, n: nat)
    ensures Delay(p, 0) == if p.baseMs < p.maxMs then p.baseMs else p.maxMs
    ensures Delay(p, n + 1) == if 2 * Delay(p, n) < p.maxMs then 2 * Delay(p, n) else p.maxMs
  {
    Twice(p.baseMs, Power2(n));
    DelayGrows(p, n, n + 1);
  }

  lemma Twice(k: nat, x: nat)
    ensures k * (2 * x) == 2 * (k * x)
  {
  }

  /** A waiting or connecting client whose page becomes visible or comes online gives up its socket, if any, and connects at once,
      with the delays starting over; one that cannot make a socket waits for the first delay. */
  lemma PageEventsReconnect(p: Policy, s: State, now: int, ok: bool, e: Event)
    requires Inv(p, s) && s.started && !s.stopped && s.status != Open
    requires e == CameOnline(ok) || e == BecameVisible(true, now, ok)
    ensures var s' := Step(p, s, e);
            && (ok ==> IsConnecting(s') && s'.ws == Some(|s.sockets|) && s'.delays == [])
            && (!ok ==> IsWaiting(s') && s'.delays == [Delay(p, 0)])
            && forall w :: 0 <= w < |s.sockets| ==> s'.sockets[w] == Dead
  {
    hide Delay;
    var idle := Dropped(s);
    DroppedIsIdle(p, s);
    hide Inv, Dropped;
    IdleOpens(p, idle, ok);
  }

  function Dropped(s: State): State {
    var dropped := if s.ws.Some? then AfterCloseSocket(s, s.ws.value).(ws := None) else s;
    AfterStopHeartbeat(AfterDisarmConnectWatchdog(AfterClearReconnectTimer(dropped))).(attempts := 0, delays := [])
  }

  lemma DroppedIsIdle(p: Policy, s: State)
    requires Inv(p, s) && s.started && !s.stopped && s.status != Open
    ensures var idle := Dropped(s);
            && OneSocket(idle) && FreshTimers(idle) && IsIdle(idle) && idle.attempts == 0 && idle.delays == []
            && |idle.sockets| == |s.sockets|
  {
    hide Delay;
    if IsConnecting(s) {
      OneKey(s.armed, s.connectWatch.value, Watchdog(s.ws.value));
    } else {
      OneKey(s.armed, s.timer.value, Reconnect);
    }
  }

  lemma IdleOpens(p: Policy, s: State, ok: bool)
    requires OneSocket(s) && FreshTimers(s) && IsIdle(s) && s.attempts == 0 && s.delays == []
    ensures var s' := AfterOpenSocket(p, s, ok);
            && (ok ==> IsConnecting(s') && s'.ws == Some(|s.sockets|) && s'.delays == [])
            && (!ok ==> IsWaiting(s') && s'.delays == [Delay(p, 0)])
            && |s'.sockets| >= |s.sockets| && forall w :: 0 <= w < |s.sockets| ==> s'.sockets[w] == Dead
  {
    hide Delay;
  }

  /** A page that is hidden, or an open connection, is left alone. */
  lemma OtherPageEventsDoNothing(p: Policy, s: State, now: int, ok: bool)
    requires Inv(p, s) && s.started && !s.stopped
    ensures Step(p, s, BecameVisible(false, now, ok)) == s
    ensures s.status == Open ==> Step(p, s, CameOnline(ok)) == s
    ensures s.status == Open && now - s.lastMsgAt <= p.deadAfterMs ==> Step(p, s, BecameVisible(true, now, ok)) == s
  {
  }

  lemma Heard(p: Policy, s: State, at: int, e: Event)
    requires Inv(p, s) && s.started && !s.stopped && Possible(s, e)
    requires (e == MessageArrived(at) && IsOpen(s)) || (e.SocketOpened? && e.now == at)
    ensures var s' := Step(p, s, e);
            IsOpen(s') && s'.lastMsgAt == at && s'.started && !s'.stopped
  {
    hide Backoff, Delay, FreshTimers;
    if e.SocketOpened? {
      OneKey(s.armed, s.connectWatch.value, Watchdog(e.socket));
    }
  }

  /** A connection that opened or heard something at `at` outlives every heartbeat up to the limit, and none after it. */
  lemma HeardConnectionsLive(p: Policy, s: State, at: int, now: int, ok: bool, e: Event)
    requires Inv(p, s) && s.started && !s.stopped && Possible(s, e)
    requires (e == MessageArrived(at) && IsOpen(s)) || (e.SocketOpened? && e.now == at)
    ensures var s' := Step(p, s, e);
            && IsOpen(s') && Possible(s', TimerFired(s'.heartbeat.value, now, ok))
            && (if now - at <= p.deadAfterMs then Step(p, s', TimerFired(s'.heartbeat.value, now, ok)) == s'
                else IsWaiting(Step(p, s', TimerFired(s'.heartbeat.value, now, ok))))
  {
    StepKeepsInv(p, s, e);
    Heard(p, s, at, e);
    var s' := Step(p, s, e);
    assert s'.heartbeat.value in s'.armed;
    hide Inv, IsWaiting, Step, AfterFired;
    FiredIsStep(p, s', s'.heartbeat.value, now, ok);
    TimersLeadOn(p, s', s'.heartbeat.value, now, ok);
  }

  lemma FiredIsStep(p: Policy, s: State, id: nat, now: int, ok: bool)
    requires id in s.armed
    ensures Step(p, s, TimerFired(id, now, ok)) == AfterFired(p, s, id, now, ok)
  {
  }

  /** Nothing is reported, and a loss of the connection is noted. */
  predicate Notes(s: State, s': State) {
    s'.resyncs == s.resyncs && (s'.hadDisconnect <==> s.hadDisconnect || (s.status != Closed && s'.status == Closed))
  }

  predicate Keeps(s: State, s': State) {
    s'.resyncs == s.resyncs && s'.hadDisconnect == s.hadDisconnect && s'.status == s.status && s'.stopped == s.stopped
  }

  lemma TimersKeep(s: State)
    ensures Keeps(s, AfterClearReconnectTimer(s)) && Keeps(s, AfterDisarmConnectWatchdog(s)) && Keeps(s, AfterStopHeartbeat(s))
  {
  }

  lemma ScheduleKeeps(p: Policy, s: State)
    ensures Keeps(s, AfterScheduleReconnect(p, s))
  {
    hide Delay, AfterClearReconnectTimer;
    TimersKeep(s);
  }

  lemma SocketsKeep(s: State, w: nat)
    ensures Keeps(s, AfterArmConnectWatchdog(s, w)) && Keeps(s, AfterCloseSocket(s, w)) && AfterCloseSocket(s, w).ws == s.ws
  {
    hide AfterDisarmConnectWatchdog;
    TimersKeep(s);
  }

  lemma CloseNotes(p: Policy, s: State, w: nat)
    requires s.ws == Some(w) ==> s.status != Closed
    ensures Notes(s, AfterHandleClose(p, s, w))
  {
    hide AfterStopHeartbeat, AfterDisarmConnectWatchdog, AfterScheduleReconnect;
    if s.ws == Some(w) {
      TimersKeep(s);
      TimersKeep(AfterDisarmConnectWatchdog(s));
      ScheduleKeeps(p, AfterEmitStatus(AfterStopHeartbeat(AfterDisarmConnectWatchdog(s)).(ws := None), Closed));
    }
  }

  lemma CloseSocketNotes(p: Policy, s: State, w: nat)
    requires s.ws == Some(w) ==> s.status != Closed
    ensures Notes(s, AfterHandleClose(p, AfterCloseSocket(s, w), w))
    ensures Notes(s, AfterTerminate(p, s, w))
  {
    hide AfterHandleClose, AfterCloseSocket;
    SocketsKeep(s, w);
    CloseNotes(p, AfterCloseSocket(s, w), w);
  }

  lemma OpenNotes(p: Policy, s: State, ok: bool)
    ensures Notes(s, AfterOpenSocket(p, s, ok)) && AfterOpenSocket(p, s, ok).status == Connecting
  {
    hide AfterScheduleReconnect, AfterArmConnectWatchdog;
    var s1 := AfterEmitStatus(s, Connecting);
    ScheduleKeeps(p, s1);
    SocketsKeep(s1.(sockets := s1.sockets + [Pending], ws := Some(|s1.sockets|)), |s1.sockets|);
  }

  lemma ForceNotes(p: Policy, s: State, ok: bool)
    ensures Notes(s, AfterForceReconnect(p, s, ok))
  {
    hide AfterOpenSocket, AfterClearReconnectTimer, AfterDisarmConnectWatchdog, AfterStopHeartbeat, AfterCloseSocket;
    if s.ws.Some? {
      SocketsKeep(s, s.ws.value);
    }
    var s1 := if s.ws.Some? then AfterCloseSocket(s, s.ws.value).(ws := None) else s;
    TimersKeep(s1);
    TimersKeep(AfterClearReconnectTimer(s1));
    TimersKeep(AfterDisarmConnectWatchdog(AfterClearReconnectTimer(s1)));
    OpenNotes(p, AfterStopHeartbeat(AfterDisarmConnectWatchdog(AfterClearReconnectTimer(s1))).(attempts := 0, delays := []), ok);
  }

  lemma OpeningReports(s: State, now: int)
    ensures var s' := AfterOnOpen(s, now);
            !s'.hadDisconnect && s'.resyncs == s.resyncs + if s.hadDisconnect then 1 else 0
  {
    hide AfterDisarmConnectWatchdog, AfterStartHeartbeat;
    TimersKeep(s);
    HeartbeatKeeps(AfterDisarmConnectWatchdog(s).(attempts := 0, delays := []), now);
  }

  lemma HeartbeatKeeps(s: State, now: int)
    ensures Keeps(s, AfterStartHeartbeat(s, now))
  {
    hide AfterStopHeartbeat;
    TimersKeep(s);
  }

  lemma ClosingNotes(s: State)
    ensures Notes(s, AfterClose(s))
  {
    hide AfterClearReconnectTimer, AfterDisarmConnectWatchdog, AfterStopHeartbeat, AfterCloseSocket;
    var s1 := s.(stopped := true);
    TimersKeep(s1);
    TimersKeep(AfterClearReconnectTimer(s1));
    TimersKeep(AfterDisarmConnectWatchdog(AfterClearReconnectTimer(s1)));
    var s2 := AfterStopHeartbeat(AfterDisarmConnectWatchdog(AfterClearReconnectTimer(s1)));
    if s2.ws.Some? {
      SocketsKeep(s2, s2.ws.value);
    }
  }

  lemma ConnectedIsNotClosed(p: Policy, s: State)
    requires Inv(p, s)
    ensures s.ws.Some? ==> s.status != Closed
  {
  }

  /** The page hears of a reconnect at every opening that follows a loss of the connection, and at no other step. */
  lemma ReconnectsAreReported(p: Policy, s: State, e: Event)
    requires Inv(p, s) && Possible(s, e)
    ensures var s' := Step(p, s, e);
            if e.SocketOpened? then !s'.hadDisconnect && s'.resyncs == s.resyncs + if s.hadDisconnect then 1 else 0
            else Notes(s, s')
  {
    ConnectedIsNotClosed(p, s);
    hide Inv, AfterHandleClose, AfterTerminate, AfterOpenSocket, AfterForceReconnect, AfterOnOpen, AfterClose, AfterFired,
      AfterOnHeartbeatTick, AfterCloseSocket;
    match e
    case Connected(ok) => OpenNotes(p, s.(stopped := false, started := true), ok);
    case SocketOpened(w, now) => OpeningReports(s.(sockets := s.sockets[w := Live]), now);
    case SocketClosed(w) => CloseSocketNotes(p, s, w);
    case MessageArrived(_) =>
    case TimerFired(id, now, ok) => FiredNotes(p, s, id, now, ok);
    case BecameVisible(_, now, ok) =>
      TickNotes(p, s, now);
      ForceNotes(p, s, ok);
    case CameOnline(ok) => ForceNotes(p, s, ok);
    case ClosedByPage => ClosingNotes(s);
  }

  lemma TickNotes(p: Policy, s: State, now: int)
    ensures Notes(s, AfterOnHeartbeatTick(p, s, now))
  {
    hide AfterTerminate;
    if s.ws.Some? && s.status == Open {
      CloseSocketNotes(p, s, s.ws.value);
    }
  }

  lemma FiredNotes(p: Policy, s: State, id: nat, now: int, ok: bool)
    requires id in s.armed && (s.ws.Some? ==> s.status != Closed)
    ensures Notes(s, AfterFired(p, s, id, now, ok))
  {
    hide AfterOpenSocket, AfterTerminate, AfterOnHeartbeatTick;
    match s.armed[id]
    case Reconnect => OpenNotes(p, s.(armed := s.armed - {id}), ok);
    case Watchdog(w) => CloseSocketNotes(p, s.(armed := s.armed - {id}), w);
    case Heartbeat => TickNotes(p, s, now);
  }
}
