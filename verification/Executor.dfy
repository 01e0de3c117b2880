/** Trying the candidates of a request in turn until one answers or bytes went to the client. */
module Executor {
  import opened Common
  import opened Selector

  datatype Problem =
    | NoProblem
    | NoAvailableChannel
    | BuildFailed
    | SendFailed
    | UpstreamHTTP(status: int, detail: string)
    | Detail(text: string)
    | ConvertFailed
    | StreamConverterFailed
    | StreamBroken
    | ClientGone
    | AllFailed(last: Problem)

  /** The columns of a log row the failover decides. */
  datatype Log = Log(reqId: nat, model: string, channel: Option<int>, mode: Option<Mode>, upstreamStatus: int, problem: Problem,
                     committed: bool)

  /** What can be seen from outside: log rows, response heads and bodies, and which channels were asked. */
  datatype Event = Started(log: Log) | Tried(channel: int) | Head(status: int) | Body | Row(log: Log)

  // ---------- what the upstream does ----------

  /** A reply that could not be read still has its status. */
  datatype Reply = NoReply(status: int) | Reply(status: int, detail: string, converts: bool)

  datatype ReadEnd = More | Eof | Broken

  /** One read of a stream: whether bytes came, whether the client took them, and how it ended. */
  datatype Read = Read(bytes: bool, clientTakes: bool, end: ReadEnd)

  datatype Opened = NoStream | Opened(status: int, detail: string, steps: seq<Read>)

  /** `cancelled` says whether the client has gone when the attempt is over. */
  datatype Outcome = Outcome(parses: bool, reply: Reply, stream: Opened, cancelled: bool)

  datatype Request = Request(protocol: Protocol, model: string, stream: bool, reqId: nat)

  /** `failed` is set exactly for failures after which the next candidate may be tried. */
  datatype Result = Result(events: seq<Event>, failed: Option<Problem>, log: Log)

  // ---------- decisions ----------

  predicate SuccessStatus(code: int) {
    200 <= code < 300
  }

  predicate RetryableStatus(code: int) {
    code in {408, 429, 401, 403, 500, 502, 503, 504}
  }

  function ProviderDefault(ch: Channel): Protocol {
    if ch.provider == Anthropic then Messages else ChatCompletions
  }

  function UpstreamProtoFor(ch: Channel, inbound: Protocol): Protocol {
    if inbound != ChatCompletions && IsNative(ch, ChatCompletions) then ChatCompletions
    else if inbound != Messages && IsNative(ch, Messages) then Messages
    else if inbound != Responses && IsNative(ch, Responses) then Responses
    else ProviderDefault(ch)
  }

  function UpstreamOf(c: Candidate, inbound: Protocol): Protocol {
    if c.mode == NativePassthrough then inbound else UpstreamProtoFor(c.channel, inbound)
  }

  /** ConvertRequest: equal protocols are refused, and nothing can be written for a responses upstream. */
  predicate Builds(inbound: Protocol, up: Protocol, parses: bool) {
    inbound != up && parses && up != Responses
  }

  /** NewStreamConverter refuses equal protocols. */
  predicate HasConverter(inbound: Protocol, up: Protocol) {
    inbound != up
  }

  function ForwardedStatus(status: int): int {
    if status == 0 then 502 else status
  }

  function AttemptLog(req: Request, c: Candidate): Log {
    Log(req.reqId, if c.upstreamModel == "" then req.model else c.upstreamModel, Some(c.channel.id), Some(c.mode), 0, NoProblem, false)
  }

  // ---------- one attempt ----------

  function NonStream(req: Request, c: Candidate, o: Outcome): Result {
    var log := AttemptLog(req, c);
    if c.mode == Converted && !Builds(req.protocol, UpstreamOf(c, req.protocol), o.parses) then Result([], Some(BuildFailed), log)
    else match o.reply
      case NoReply(status) => Result([], Some(SendFailed), log.(upstreamStatus := status))
      case Reply(status, detail, converts) =>
        var log1 := log.(upstreamStatus := status);
        if !SuccessStatus(status) then
          if RetryableStatus(status) then Result([], Some(UpstreamHTTP(status, detail)), log1)
          else
            var log2 := log1.(problem := Detail(detail));
            Result([Row(log2), Head(ForwardedStatus(status)), Body], None, log2)
        else if c.mode == Converted && !converts then
          var log2 := log1.(problem := ConvertFailed);
          Result([Row(log2), Head(502), Body], None, log2)
        else Result([Head(status), Body, Row(log1)], None, log1)
  }

  /** What the reads of a stream write to the client, and the problem they end with; a Body stands for any writes. */
  function Copy(passthrough: bool, steps: seq<Read>, cancelled: bool): (seq<Event>, Problem) {
    if steps == [] then ([], NoProblem)
    else
      var r := steps[0];
      if passthrough && r.bytes && !r.clientTakes then ([], ClientGone)
      else
        var first := if r.bytes then [Body] else [];
        if r.end == More then
          var rest := Copy(passthrough, steps[1..], cancelled);
          (first + rest.0, rest.1)
        else (first, if r.end == Eof then NoProblem else if cancelled then ClientGone else StreamBroken)
  }

  function Streamed(req: Request, c: Candidate, o: Outcome): Result {
    var log := AttemptLog(req, c);
    var up := UpstreamOf(c, req.protocol);
    if c.mode == Converted && !Builds(req.protocol, up, o.parses) then Result([], Some(BuildFailed), log)
    else match o.stream
      case NoStream => Result([], Some(SendFailed), log)
      case Opened(status, detail, steps) =>
        if status != 200 then
          var log1 := log.(upstreamStatus := status);
          if RetryableStatus(status) then Result([], Some(UpstreamHTTP(status, detail)), log1)
          else
            var log2 := log1.(problem := Detail(detail));
            Result([Row(log2), Head(ForwardedStatus(status)), Body], None, log2)
        else
          var log1 := log.(upstreamStatus := 200, committed := true);
          if c.mode == Converted && !HasConverter(req.protocol, up) then
            var log2 := log1.(problem := StreamConverterFailed);
            Result([Head(200), Row(log2)], None, log2)
          else
            var (copied, problem) := Copy(c.mode == NativePassthrough, steps, o.cancelled);
            var log2 := log1.(problem := problem);
            Result([Head(200)] + copied + (if c.mode == Converted && problem != ClientGone then [Body] else []) + [Row(log2)], None, log2)
  }

  function Attempt(req: Request, c: Candidate, o: Outcome): Result {
    if req.stream then Streamed(req, c, o) else NonStream(req, c, o)
  }

  // ---------- the loop ----------

  /** After a failed attempt: stop when it is the last one or the client has gone. */
  function GiveUp(r: Result, cancelled: bool): seq<Event>
    requires r.failed.Some?
  {
    [Row(r.log.(problem := if cancelled then ClientGone else AllFailed(r.failed.value))), Head(502), Body]
  }

  function TryAll(req: Request, cs: seq<Candidate>, os: seq<Outcome>): seq<Event>
    requires |cs| == |os| > 0
  {
    var r := Attempt(req, cs[0], os[0]);
    [Tried(cs[0].channel.id)] +
    if r.failed.None? then r.events
    else if os[0].cancelled || |cs| == 1 then GiveUp(r, os[0].cancelled)
    else TryAll(req, cs[1..], os[1..])
  }

  function BaseLog(req: Request): Log {
    Log(req.reqId, req.model, None, None, 0, NoProblem, false)
  }

  function Trace(req: Request, channelsOk: bool, groupOk: bool, cs: seq<Candidate>, os: seq<Outcome>): seq<Event>
    requires |cs| == |os|
  {
    [Started(BaseLog(req))] +
    if !channelsOk || !groupOk then [Head(500), Body]
    else if cs == [] then [Row(BaseLog(req).(problem := NoAvailableChannel)), Head(503), Body]
    else TryAll(req, cs, os)
  }

  // ---------- what every run keeps ----------

  function Heads(es: seq<Event>): nat {
    if es == [] then 0 else Heads(es[..|es| - 1]) + if es[|es| - 1].Head? then 1 else 0
  }

  function Rows(es: seq<Event>): seq<Log> {
    if es == [] then [] else Rows(es[..|es| - 1]) + if es[|es| - 1].Row? then [es[|es| - 1].log] else []
  }

  function Asked(es: seq<Event>): seq<int> {
    if es == [] then [] else Asked(es[..|es| - 1]) + if es[|es| - 1].Tried? then [es[|es| - 1].channel] else []
  }

  /** Body bytes only after the head, and no candidate once the head is out. */
  predicate Ordered(es: seq<Event>) {
    if es == [] then true
    else
      var init, last := es[..|es| - 1], es[|es| - 1];
      Ordered(init) && (last.Body? ==> Heads(init) > 0) && (last.Tried? ==> Heads(init) == 0)
  }

  lemma {:induction false} Concat(a: seq<Event>, b: seq<Event>)
    ensures Heads(a + b) == Heads(a) + Heads(b)
    ensures Rows(a + b) == Rows(a) + Rows(b)
    ensures Asked(a + b) == Asked(a) + Asked(b)
  {
    if b == [] {
      assert a + b == a;
    } else {
      assert (a + b)[..|a + b| - 1] == a + b[..|b| - 1];
      Concat(a, b[..|b| - 1]);
    }
  }

  /** Before any head nothing but attempts; afterwards no attempts. */
  lemma {:induction false} OrderedConcat(a: seq<Event>, b: seq<Event>)
    requires Ordered(a) && Ordered(b) && (Heads(a) == 0 || Asked(b) == [])
    ensures Ordered(a + b)
  {
    hide Rows;
    if b == [] {
      assert a + b == a;
    } else {
      var init := b[..|b| - 1];
      assert (a + b)[..|a + b| - 1] == a + init;
      OrderedConcat(a, init);
      Concat(a, init);
    }
  }

  lemma OneEvent(e: Event)
    ensures Heads([e]) == (if e.Head? then 1 else 0)
    ensures Rows([e]) == (if e.Row? then [e.log] else [])
    ensures Asked([e]) == (if e.Tried? then [e.channel] else [])
    ensures Ordered([e]) <==> !e.Body?
  {
    assert [e][..0] == [];
  }

  /** One head, one row, no attempts, bodies after the head. */
  predicate Ending(es: seq<Event>) {
    Heads(es) == 1 && |Rows(es)| == 1 && Asked(es) == [] && Ordered(es)
  }

  lemma RowThenHead(log: Log, status: int)
    ensures Ending([Row(log), Head(status), Body]) && Rows([Row(log), Head(status), Body]) == [log]
  {
    var es := [Row(log), Head(status), Body];
    assert es[..2] == [Row(log), Head(status)] && es[..2][..1] == [Row(log)];
    OneEvent(Row(log));
  }

  lemma NoEvents()
    ensures Heads([]) == 0 && Rows([]) == [] && Asked([]) == []
  {
  }

  lemma {:induction false} BodiesOnly(status: int, bodies: seq<Event>)
    requires forall i :: 0 <= i < |bodies| ==> bodies[i].Body?
    ensures Heads(bodies) == 0 && Rows(bodies) == [] && Asked(bodies) == []
    ensures Ordered([Head(status)] + bodies)
  {
    hide Heads, Rows, Asked, Ordered;
    NoEvents();
    OneEvent(Head(status));
    if bodies == [] {
      assert [Head(status)] + bodies == [Head(status)];
    } else {
      var init := bodies[..|bodies| - 1];
      BodiesOnly(status, init);
      Concat([Head(status)], init);
      OneMoreBody([Head(status)] + init);
      OneMoreBody(init);
      assert init + [Body] == bodies && [Head(status)] + init + [Body] == [Head(status)] + bodies;
    }
  }

  lemma OneMoreBody(es: seq<Event>)
    ensures Heads(es + [Body]) == Heads(es) && Rows(es + [Body]) == Rows(es) && Asked(es + [Body]) == Asked(es)
    ensures Ordered(es) && Heads(es) > 0 ==> Ordered(es + [Body])
  {
    assert (es + [Body])[..|es|] == es;
  }

  lemma HeadThenRow(status: int, bodies: seq<Event>, log: Log)
    requires forall i :: 0 <= i < |bodies| ==> bodies[i].Body?
    ensures Ending([Head(status)] + bodies + [Row(log)]) && Rows([Head(status)] + bodies + [Row(log)]) == [log]
  {
    hide Heads, Rows, Asked, Ordered;
    BodiesOnly(status, bodies);
    OneEvent(Head(status));
    OneEvent(Row(log));
    Concat([Head(status)], bodies);
    Concat([Head(status)] + bodies, [Row(log)]);
    OrderedConcat([Head(status)] + bodies, [Row(log)]);
  }

  lemma {:induction false} CopiesBodies(passthrough: bool, steps: seq<Read>, cancelled: bool)
    ensures forall i :: 0 <= i < |Copy(passthrough, steps, cancelled).0| ==> Copy(passthrough, steps, cancelled).0[i].Body?
  {
    if steps != [] {
      CopiesBodies(passthrough, steps[1..], cancelled);
    }
  }

  /** An attempt either answers, completely, or fails without having written anything. */
  lemma AttemptAnswersOrFails(req: Request, c: Candidate, o: Outcome)
    ensures var r := Attempt(req, c, o);
            && r.log.reqId == req.reqId && r.log.channel == Some(c.channel.id)
            && (if r.failed.Some? then r.events == [] && !r.log.committed else Ending(r.events) && Rows(r.events) == [r.log])
  {
    hide Ending, Ordered, Heads, Rows, Asked, Copy, UpstreamOf, Builds, SuccessStatus, RetryableStatus;
    var r := Attempt(req, c, o);
    if req.stream {
      StreamedAnswersOrFails(req, c, o);
    } else if r.failed.None? {
      if o.reply.Reply? && SuccessStatus(o.reply.status) && (c.mode == Converted ==> o.reply.converts) {
        HeadThenRow(o.reply.status, [Body], r.log);
        assert [Head(o.reply.status)] + [Body] + [Row(r.log)] == [Head(o.reply.status), Body, Row(r.log)];
      } else {
        RowThenHead(r.log, ForwardedStatus(o.reply.status));
        RowThenHead(r.log, 502);
      }
    }
  }

  lemma StreamedAnswersOrFails(req: Request, c: Candidate, o: Outcome)
    ensures var r := Streamed(req, c, o);
            && r.log.reqId == req.reqId && r.log.channel == Some(c.channel.id)
            && (if r.failed.Some? then r.events == [] && !r.log.committed else Ending(r.events) && Rows(r.events) == [r.log])
  {
    hide Ending, Ordered, Heads, Rows, Asked, Copy, UpstreamOf, Builds, HasConverter, RetryableStatus;
    var r := Streamed(req, c, o);
    if r.failed.None? {
      if o.stream.status != 200 {
        RowThenHead(r.log, ForwardedStatus(o.stream.status));
      } else {
        var copied := Copy(c.mode == NativePassthrough, o.stream.steps, o.cancelled);
        CopiesBodies(c.mode == NativePassthrough, o.stream.steps, o.cancelled);
        HeadThenRow(200, [], r.log);
        assert [Head(200)] + [] + [Row(r.log)] == [Head(200), Row(r.log)];
        var last := if c.mode == Converted && copied.1 != ClientGone then [Body] else [];
        HeadThenRow(200, copied.0 + last, r.log);
        assert [Head(200)] + (copied.0 + last) + [Row(r.log)] == [Head(200)] + copied.0 + last + [Row(r.log)];
      }
    }
  }

  // ---------- whole requests ----------

  /** The attempt fails in a way that lets the next candidate try. */
  predicate FailsOver(req: Request, c: Candidate, o: Outcome) {
    Attempt(req, c, o).failed.Some? && !o.cancelled
  }

  /** How many candidates are tried: up to the first that does not fail over, else all. */
  function Tries(req: Request, cs: seq<Candidate>, os: seq<Outcome>): (n: nat)
    requires |cs| == |os|
    ensures n <= |cs| && (cs != [] ==> n > 0)
    ensures forall i :: 0 <= i < n - 1 ==> FailsOver(req, cs[i], os[i])
    ensures 0 < n < |cs| ==> !FailsOver(req, cs[n - 1], os[n - 1])
  {
    if cs == [] then 0
    else if FailsOver(req, cs[0], os[0]) then 1 + Tries(req, cs[1..], os[1..]) else 1
  }

  function Ids(cs: seq<Candidate>): (ids: seq<int>)
    ensures |ids| == |cs| && forall i :: 0 <= i < |cs| ==> ids[i] == cs[i].channel.id
  {
    seq(|cs|, i requires 0 <= i < |cs| => cs[i].channel.id)
  }

  /** The row an unsuccessful request leaves: that of its last attempt. */
  function LastRow(req: Request, c: Candidate, o: Outcome): Log {
    var r := Attempt(req, c, o);
    if r.failed.None? then r.log else r.log.(problem := if o.cancelled then ClientGone else AllFailed(r.failed.value))
  }

  lemma FirstTried(id: int, rest: seq<Event>)
    requires Heads(rest) == 1 && Ordered(rest)
    ensures Heads([Tried(id)] + rest) == 1 && Ordered([Tried(id)] + rest)
    ensures Rows([Tried(id)] + rest) == Rows(rest) && Asked([Tried(id)] + rest) == [id] + Asked(rest)
  {
    OneEvent(Tried(id));
    Concat([Tried(id)], rest);
    OrderedConcat([Tried(id)], rest);
  }

  lemma GiveUpEnds(r: Result, cancelled: bool)
    requires r.failed.Some?
    ensures Ending(GiveUp(r, cancelled))
    ensures Rows(GiveUp(r, cancelled)) == [r.log.(problem := if cancelled then ClientGone else AllFailed(r.failed.value))]
  {
    RowThenHead(r.log.(problem := if cancelled then ClientGone else AllFailed(r.failed.value)), 502);
  }

  lemma {:induction false} TryAllShape(req: Request, cs: seq<Candidate>, os: seq<Outcome>)
    requires |cs| == |os| > 0
    ensures var es, n := TryAll(req, cs, os), Tries(req, cs, os);
            && Heads(es) == 1 && Ordered(es)
            && Asked(es) == Ids(cs[..n]) && Rows(es) == [LastRow(req, cs[n - 1], os[n - 1])]
  {
    hide Heads, Rows, Asked, Ordered, Attempt, GiveUp, Ids;
    var r := Attempt(req, cs[0], os[0]);
    AttemptAnswersOrFails(req, cs[0], os[0]);
    FirstId(cs, Tries(req, cs, os));
    if r.failed.None? {
      FirstTried(cs[0].channel.id, r.events);
    } else if os[0].cancelled || |cs| == 1 {
      GiveUpEnds(r, os[0].cancelled);
      FirstTried(cs[0].channel.id, GiveUp(r, os[0].cancelled));
      OnlyOne(req, cs, os);
    } else {
      TryAllShape(req, cs[1..], os[1..]);
      FirstTried(cs[0].channel.id, TryAll(req, cs[1..], os[1..]));
    }
  }

  lemma FirstId(cs: seq<Candidate>, n: nat)
    requires 0 < n <= |cs|
    ensures Ids(cs[..n]) == [cs[0].channel.id] + Ids(cs[1..][..n - 1])
    ensures Ids(cs[1..][..0]) == []
  {
  }

  lemma OnlyOne(req: Request, cs: seq<Candidate>, os: seq<Outcome>)
    requires |cs| == |os| > 0 && (os[0].cancelled || |cs| == 1)
    ensures Tries(req, cs, os) == 1
  {
    if |cs| == 1 {
      assert cs[1..] == [] && os[1..] == [];
    }
  }

  /** Whatever the upstreams do: one response head; one log row, about the last attempt, unless the channel or group
      lookup failed; the candidates asked are a prefix, all but the last of which failed before anything was written;
      no body before the head and no attempt after it. */
  lemma HandleShape(req: Request, channelsOk: bool, groupOk: bool, cs: seq<Candidate>, os: seq<Outcome>)
    requires |cs| == |os|
    ensures var es, n := Trace(req, channelsOk, groupOk, cs, os), Tries(req, cs, os);
            && Heads(es) == 1 && Ordered(es)
            && (if !channelsOk || !groupOk then Rows(es) == [] && Asked(es) == []
                else if cs == [] then Rows(es) == [BaseLog(req).(problem := NoAvailableChannel)] && Asked(es) == []
                else Rows(es) == [LastRow(req, cs[n - 1], os[n - 1])] && Asked(es) == Ids(cs[..n]))
  {
    hide Heads, Rows, Asked, Ordered, TryAll;
    var started, rest := [Started(BaseLog(req))], Trace(req, channelsOk, groupOk, cs, os)[1..];
    assert Trace(req, channelsOk, groupOk, cs, os) == started + rest;
    OneEvent(Started(BaseLog(req)));
    if !channelsOk || !groupOk {
      BodiesOnly(500, [Body]);
      OneEvent(Head(500));
      Concat([Head(500)], [Body]);
      assert [Head(500)] + [Body] == [Head(500), Body];
    } else if cs == [] {
      RowThenHead(BaseLog(req).(problem := NoAvailableChannel), 503);
    } else {
      TryAllShape(req, cs, os);
    }
    Concat(started, rest);
    OrderedConcat(started, rest);
  }

  /** An attempt that fails over has written nothing. */
  lemma FailedAttemptsAreSilent(req: Request, c: Candidate, o: Outcome)
    requires FailsOver(req, c, o)
    ensures Attempt(req, c, o).events == [] && !Attempt(req, c, o).log.committed
  {
    AttemptAnswersOrFails(req, c, o);
  }

  /** The branch for a converter that cannot be built after the head was sent is never taken. */
  lemma StreamConverterIsAlwaysThere(req: Request, c: Candidate, o: Outcome)
    ensures Streamed(req, c, o).log.problem != StreamConverterFailed
  {
    CopyProblems(c.mode == NativePassthrough, if o.stream.Opened? then o.stream.steps else [], o.cancelled);
  }

  lemma {:induction false} CopyProblems(passthrough: bool, steps: seq<Read>, cancelled: bool)
    ensures Copy(passthrough, steps, cancelled).1 in {NoProblem, ClientGone, StreamBroken}
  {
    if steps != [] {
      CopyProblems(passthrough, steps[1..], cancelled);
    }
  }

  /** An eligible channel that must convert can do so exactly when it declares its protocols or its provider's
      default is not what the client speaks; otherwise every attempt on it fails. */
  lemma ConvertsExactly(ch: Channel, inbound: Protocol, model: string)
    requires Eligible(ch, inbound, model) && !IsNative(ch, inbound)
    ensures Builds(inbound, UpstreamProtoFor(ch, inbound), true) <==> ch.protocols.Declared? || ProviderDefault(ch) != inbound
  {
  }

  /** On a channel that cannot convert every attempt fails before anything is sent. */
  lemma CannotConvertAlwaysFails(req: Request, c: Candidate, o: Outcome)
    requires c.mode == Converted && Eligible(c.channel, req.protocol, c.upstreamModel) && !IsNative(c.channel, req.protocol)
    requires c.channel.protocols.Undeclared? && ProviderDefault(c.channel) == req.protocol
    ensures Attempt(req, c, o).failed == Some(BuildFailed) && Attempt(req, c, o).events == []
  {
    ConvertsExactly(c.channel, req.protocol, c.upstreamModel);
  }

  /** What follows attempt `i`. */
  function After(req: Request, cs: seq<Candidate>, os: seq<Outcome>, i: nat): seq<Event>
    requires |cs| == |os| && i < |cs|
  {
    var r := Attempt(req, cs[i], os[i]);
    if r.failed.None? then r.events
    else if os[i].cancelled || i + 1 == |cs| then GiveUp(r, os[i].cancelled)
    else TryAll(req, cs[i + 1..], os[i + 1..])
  }

  lemma TryStep(req: Request, cs: seq<Candidate>, os: seq<Outcome>, i: nat)
    requires |cs| == |os| && i < |cs|
    ensures TryAll(req, cs[i..], os[i..]) == [Tried(cs[i].channel.id)] + After(req, cs, os, i)
  {
    hide Attempt, GiveUp;
    var rest, outcomes := cs[i..], os[i..];
    assert rest[0] == cs[i] && outcomes[0] == os[i] && rest[1..] == cs[i + 1..] && outcomes[1..] == os[i + 1..];
  }

  lemma GiveUpIs(r: Result, cancelled: bool)
    requires r.failed.Some?
    ensures GiveUp(r, cancelled) == [Row(r.log.(problem := if cancelled then ClientGone else AllFailed(r.failed.value)))] + [Head(502)] + [Body]
  {
  }

  /** What is copied after the bytes of read `i`. */
  function Copied(passthrough: bool, steps: seq<Read>, cancelled: bool, i: nat): seq<Event>
    requires i < |steps|
  {
    if steps[i].end == More then Copy(passthrough, steps[i + 1..], cancelled).0 else []
  }

  lemma CopyStep(passthrough: bool, steps: seq<Read>, cancelled: bool, i: nat)
    requires i < |steps|
    ensures var r := steps[i];
            Copy(passthrough, steps[i..], cancelled) ==
            if passthrough && r.bytes && !r.clientTakes then ([], ClientGone)
            else ((if r.bytes then [Body] else []) + Copied(passthrough, steps, cancelled, i),
                  if r.end == More then Copy(passthrough, steps[i + 1..], cancelled).1
                  else if r.end == Eof then NoProblem else if cancelled then ClientGone else StreamBroken)
  {
    assert steps[i..][1..] == steps[i + 1..];
    var first: seq<Event> := if steps[i].bytes then [Body] else [];
    assert first + [] == first;
  }

  lemma CopyNothing(passthrough: bool, steps: seq<Read>, cancelled: bool)
    ensures Copy(passthrough, steps[|steps|..], cancelled) == ([], NoProblem)
  {
  }

  // ---------- the executor ----------

  class Executor {
    /** Everything written, stored or asked so far. */
    var events: seq<Event>

    constructor ()
      ensures events == []
    {
      events := [];
    }

    method Emit(e: Event)
      modifies this
      ensures events == old(events) + [e]
    {
      events := events + [e];
    }

    method HandleNonStream(req: Request, c: Candidate, o: Outcome) returns (failed: Option<Problem>, log: Log)
      requires !req.stream
      modifies this
      ensures var r := Attempt(req, c, o);
              events == old(events) + r.events && failed == r.failed && log == r.log
    {
      log := AttemptLog(req, c);
      if c.mode == Converted && !Builds(req.protocol, UpstreamProtoFor(c.channel, req.protocol), o.parses) {
        return Some(BuildFailed), log;
      }
      log := log.(upstreamStatus := o.reply.status);
      if o.reply.NoReply? {
        return Some(SendFailed), log;
      }
      if !SuccessStatus(log.upstreamStatus) {
        if RetryableStatus(log.upstreamStatus) {
          return Some(UpstreamHTTP(log.upstreamStatus, o.reply.detail)), log;
        }
        log := log.(problem := Detail(o.reply.detail));
        Emit(Row(log));
        Emit(Head(if log.upstreamStatus == 0 then 502 else log.upstreamStatus));
        Emit(Body);
        return None, log;
      }
      if c.mode != NativePassthrough && !o.reply.converts {
        log := log.(problem := ConvertFailed);
        Emit(Row(log));
        Emit(Head(502));
        Emit(Body);
        return None, log;
      }
      Emit(Head(log.upstreamStatus));
      Emit(Body);
      Emit(Row(log));
      return None, log;
    }

    /** Read and forward until the stream ends or the client stops taking bytes. */
    method Forward(passthrough: bool, steps: seq<Read>, cancelled: bool) returns (problem: Problem)
      modifies this
      ensures events == old(events) + Copy(passthrough, steps, cancelled).0 && problem == Copy(passthrough, steps, cancelled).1
    {
      hide Copy;
      problem := NoProblem;
      ghost var goal := events + Copy(passthrough, steps, cancelled).0;
      var i := 0;
      assert steps[0..] == steps;
      while i < |steps|
        invariant i <= |steps| && problem == NoProblem
        invariant events + Copy(passthrough, steps[i..], cancelled).0 == goal
        invariant Copy(passthrough, steps[i..], cancelled).1 == Copy(passthrough, steps, cancelled).1
        decreases |steps| - i
      {
        var r := steps[i];
        CopyStep(passthrough, steps, cancelled, i);
        if passthrough && r.bytes && !r.clientTakes {
          problem := ClientGone;
          return;
        }
        if r.bytes {
          Associate(events, [Body], Copied(passthrough, steps, cancelled, i));
          Emit(Body);
        }
        if r.end != More {
          if r.end != Eof {
            problem := if cancelled then ClientGone else StreamBroken;
          }
          return;
        }
        i := i + 1;
      }
      CopyNothing(passthrough, steps, cancelled);
    }

    method HandleStream(req: Request, c: Candidate, o: Outcome) returns (failed: Option<Problem>, log: Log)
      requires req.stream
      modifies this
      ensures var r := Attempt(req, c, o);
              events == old(events) + r.events && failed == r.failed && log == r.log
    {
      hide Copy;
      log := AttemptLog(req, c);
      var up := UpstreamOf(c, req.protocol);
      if c.mode == Converted && !Builds(req.protocol, up, o.parses) {
        return Some(BuildFailed), log;
      }
      if o.stream.NoStream? {
        return Some(SendFailed), log;
      }
      if o.stream.status != 200 {
        log := log.(upstreamStatus := o.stream.status);
        if RetryableStatus(o.stream.status) {
          return Some(UpstreamHTTP(o.stream.status, o.stream.detail)), log;
        }
        log := log.(problem := Detail(o.stream.detail));
        Emit(Row(log));
        Emit(Head(if o.stream.status == 0 then 502 else o.stream.status));
        Emit(Body);
        return None, log;
      }
      log := log.(committed := true);
      Emit(Head(200));
      log := log.(upstreamStatus := 200);
      if c.mode == Converted && !HasConverter(req.protocol, up) {
        // A request for equal protocols was refused before anything was sent.
        assert false;
      }
      var problem := Forward(c.mode == NativePassthrough, o.stream.steps, o.cancelled);
      log := log.(problem := problem);
      if c.mode == Converted && problem != ClientGone {
        Emit(Body);
      }
      Emit(Row(log));
      return None, log;
    }

    /** Answer one request: look up channels and group, then try the candidates in order. */
    method Handle(req: Request, channelsOk: bool, groupOk: bool, cs: seq<Candidate>, os: seq<Outcome>)
      requires |cs| == |os|
      modifies this
      ensures events == old(events) + Trace(req, channelsOk, groupOk, cs, os)
    {
      hide Attempt, TryAll, Ending, Rows;
      var log := BaseLog(req);
      Emit(Started(log));
      if !channelsOk {
        Emit(Head(500));
        Emit(Body);
        return;
      }
      if !groupOk {
        Emit(Head(500));
        Emit(Body);
        return;
      }
      if |cs| == 0 {
        Emit(Row(log.(problem := NoAvailableChannel)));
        Emit(Head(503));
        Emit(Body);
        return;
      }
      TryCandidates(req, cs, os, log);
    }

    /** The failover loop and, when it ends without an answer, the error for the client. */
    method TryCandidates(req: Request, cs: seq<Candidate>, os: seq<Outcome>, log: Log)
      requires |cs| == |os| > 0
      modifies this
      ensures events == old(events) + TryAll(req, cs, os)
    {
      hide Attempt, TryAll, Ending, Rows, GiveUp;
      ghost var goal, last := events + TryAll(req, cs, os), Result([], None, log);
      var lastErr := NoProblem;
      var lastAttempt := log;
      var clientGone := false;
      var i := 0;
      assert cs[0..] == cs && os[0..] == os;
      while i < |cs| && !clientGone
        invariant i <= |cs|
        invariant i < |cs| && !clientGone ==> events + TryAll(req, cs[i..], os[i..]) == goal
        invariant clientGone || i == |cs| ==> last.failed == Some(lastErr) && last.log == lastAttempt
        invariant clientGone || i == |cs| ==> events + GiveUp(last, clientGone) == goal
      {
        TryStep(req, cs, os, i);
        AttemptAnswersOrFails(req, cs[i], os[i]);
        last := Attempt(req, cs[i], os[i]);
        Associate(events, [Tried(cs[i].channel.id)], After(req, cs, os, i));
        Emit(Tried(cs[i].channel.id));
        var failed: Option<Problem>;
        failed, lastAttempt := HandleAttempt(req, cs[i], os[i]);
        if failed.None? || lastAttempt.committed {
          return;
        }
        lastErr := failed.value;
        clientGone := os[i].cancelled;
        i := i + 1;
      }
      GiveUpIs(last, clientGone);
      Emit(Row(lastAttempt.(problem := if clientGone then ClientGone else AllFailed(lastErr))));
      Emit(Head(502));
      Emit(Body);
    }

    method HandleAttempt(req: Request, c: Candidate, o: Outcome) returns (failed: Option<Problem>, log: Log)
      modifies this
      ensures var r := Attempt(req, c, o);
              events == old(events) + r.events && failed == r.failed && log == r.log
    {
      hide Attempt;
      if req.stream {
        failed, log := HandleStream(req, c, o);
      } else {
        failed, log := HandleNonStream(req, c, o);
      }
    }
  }
}
