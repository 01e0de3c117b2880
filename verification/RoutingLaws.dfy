/** Which channels are eligible and in which order, what fails over, and what the client and the log get, said without the
    functions that decide it. */
module RoutingLaws {
  import opened Common
  import opened Executor
  import opened Folds
  import opened Permutations
  import opened Selector

  // ---------- candidates ----------

  predicate Speaks(ch: Channel, p: Protocol) {
    ch.protocols.Declared? && p in ch.protocols.names
  }

  /** An enabled channel with the model takes a request it speaks natively, or can convert: to chat, to messages, or, when it
      declares nothing, to its provider's default. */
  lemma EligibleExactly(ch: Channel, inbound: Protocol, model: string)
    ensures Eligible(ch, inbound, model) <==>
            && ch.enabled && (ch.models == [] || model in ch.models)
            && (ch.protocols.Undeclared? || Speaks(ch, inbound) || Speaks(ch, ChatCompletions) || Speaks(ch, Messages))
  {
  }

  function TakenBy(inbound: Protocol, model: string): Channel -> bool {
    (ch: Channel) => Eligible(ch, inbound, model)
  }

  function UsedAs(inbound: Protocol, model: string): Channel -> Candidate {
    (ch: Channel) => Candidate(ch, if Speaks(ch, inbound) then NativePassthrough else Converted, model)
  }

  function PairedWith(inbound: Protocol, member: Member): Channel -> Entry {
    (ch: Channel) => Entry(member, ch, Speaks(ch, inbound))
  }

  /** Each eligible channel is one candidate, passed through when it speaks the client's protocol and converted otherwise. */
  lemma {:induction false} CandidatesAreTheEligible(channels: seq<Channel>, inbound: Protocol, model: string)
    ensures EligibleCandidates(channels, inbound, model) == Map(UsedAs(inbound, model), Filter(TakenBy(inbound, model), channels))
  {
    if channels != [] {
      var init, ch := channels[..|channels| - 1], channels[|channels| - 1];
      CandidatesAreTheEligible(init, inbound, model);
      hide Eligible;
      MapConcat(UsedAs(inbound, model), Filter(TakenBy(inbound, model), init), [ch]);
    }
  }

  /** Each member is paired with each channel eligible for its model. */
  lemma {:induction false} EntriesAreTheEligible(member: Member, channels: seq<Channel>, inbound: Protocol)
    ensures EntriesOf(member, channels, inbound) == Map(PairedWith(inbound, member), Filter(TakenBy(inbound, member.model), channels))
  {
    if channels != [] {
      var init, ch := channels[..|channels| - 1], channels[|channels| - 1];
      EntriesAreTheEligible(member, init, inbound);
      hide Eligible;
      MapConcat(PairedWith(inbound, member), Filter(TakenBy(inbound, member.model), init), [ch]);
    }
  }

  lemma {:induction false} EntriesOfAllMembers(members: seq<Member>, channels: seq<Channel>, inbound: Protocol, e: Entry)
    ensures e in EligibleEntries(members, channels, inbound) <==>
            e.member in members && e.channel in channels && Eligible(e.channel, inbound, e.member.model) && e.native == Speaks(e.channel, inbound)
  {
    hide Eligible;
    if members != [] {
      var init, m := members[..|members| - 1], members[|members| - 1];
      EntriesOfAllMembers(init, channels, inbound, e);
      EntriesOfOne(m, channels, inbound, e);
      InSnoc(init, m);
      SnocIs(init, m, members);
    }
  }

  lemma {:induction false} EntriesOfOne(m: Member, channels: seq<Channel>, inbound: Protocol, e: Entry)
    ensures e in EntriesOf(m, channels, inbound) <==>
            e.member == m && e.channel in channels && Eligible(e.channel, inbound, m.model) && e.native == Speaks(e.channel, inbound)
  {
    hide Eligible;
    if channels != [] {
      var init, ch := channels[..|channels| - 1], channels[|channels| - 1];
      EntriesOfOne(m, init, inbound, e);
      InSnoc(init, ch);
      SnocIs(init, ch, channels);
    }
  }

  /** Candidates in key order: no native one after a converted one, and lower priority numbers first among each. */
  lemma NativeFirst(out: seq<Candidate>, i: nat, j: nat)
    requires Sorted(CandidateKey, out) && i < j < |out|
    ensures out[j].mode == NativePassthrough ==> out[i].mode == NativePassthrough
    ensures out[i].mode == out[j].mode ==> out[i].channel.priority <= out[j].channel.priority
  {
    assert Leq(CandidateKey(out[i]), CandidateKey(out[j]));
  }

  /** Pairs in key order: lower member priorities first, then lower channel priorities, then native ones. */
  lemma MembersFirst(chosen: seq<Entry>, i: nat, j: nat)
    requires Sorted(EntryKey, chosen) && i < j < |chosen|
    ensures var a, b := chosen[i], chosen[j];
            && a.member.priority <= b.member.priority
            && (a.member.priority == b.member.priority ==> a.channel.priority <= b.channel.priority)
            && (a.member.priority == b.member.priority && a.channel.priority == b.channel.priority && b.native ==> a.native)
  {
    assert Leq(EntryKey(chosen[i]), EntryKey(chosen[j]));
  }

  /** A converted request goes to chat when the channel declares it, else to messages when declared; a channel that declares
      nothing gets its provider's protocol. */
  lemma ConversionTarget(ch: Channel, inbound: Protocol, model: string)
    requires Eligible(ch, inbound, model) && !Speaks(ch, inbound)
    ensures UpstreamProtoFor(ch, inbound) == ChatCompletions <==>
            Speaks(ch, ChatCompletions) || (ch.protocols.Undeclared? && ch.provider != Anthropic)
    ensures UpstreamProtoFor(ch, inbound) == Messages <==>
            (Speaks(ch, Messages) && !Speaks(ch, ChatCompletions)) || (ch.protocols.Undeclared? && ch.provider == Anthropic)
  {
  }

  // ---------- attempts ----------

  /** Whether the upstream's answer is worth another channel: not authorised, too slow, too many, or a server error. */
  predicate WorthRetrying(status: int) {
    status == 401 || status == 403 || status == 408 || status == 429 || (500 <= status <= 504 && status != 501)
  }

  /** The protocol the upstream of a candidate is spoken to in. */
  function SpokenTo(c: Candidate, inbound: Protocol): Protocol {
    if c.mode == NativePassthrough then inbound else UpstreamProtoFor(c.channel, inbound)
  }

  predicate CannotBuild(req: Request, c: Candidate, o: Outcome) {
    c.mode == Converted && (!o.parses || SpokenTo(c, req.protocol) == req.protocol || SpokenTo(c, req.protocol) == Responses)
  }

  predicate Unanswered(req: Request, o: Outcome) {
    if req.stream then o.stream.NoStream? else o.reply.NoReply?
  }

  function StatusOf(req: Request, o: Outcome): int {
    if req.stream then (if o.stream.Opened? then o.stream.status else 0) else o.reply.status
  }

  /** Streams must open with 200; other answers may be anything from 200 to 299. */
  predicate Succeeded(req: Request, o: Outcome) {
    if req.stream then StatusOf(req, o) == 200 else 200 <= StatusOf(req, o) <= 299
  }

  /** An attempt fails exactly when its request cannot be built, nothing comes back, or the status is worth another channel. */
  lemma FailsExactly(req: Request, c: Candidate, o: Outcome)
    ensures Attempt(req, c, o).failed.Some? <==> CannotBuild(req, c, o) || Unanswered(req, o) || WorthRetrying(StatusOf(req, o))
    ensures CannotBuild(req, c, o) ==> Attempt(req, c, o).failed == Some(BuildFailed)
    ensures !CannotBuild(req, c, o) && Unanswered(req, o) ==> Attempt(req, c, o).failed == Some(SendFailed)
  {
    hide UpstreamProtoFor, Copy;
  }

  /** The status the client gets from an attempt that answers: the upstream's own, 502 when it has none or its answer cannot be
      converted, and 200 for a stream. */
  function ShownStatus(req: Request, c: Candidate, o: Outcome): int {
    if !Succeeded(req, o) then (if StatusOf(req, o) == 0 then 502 else StatusOf(req, o))
    else if req.stream then 200
    else if c.mode == Converted && o.reply.Reply? && !o.reply.converts then 502
    else StatusOf(req, o)
  }

  lemma HeadShows(req: Request, c: Candidate, o: Outcome)
    requires Attempt(req, c, o).failed.None?
    ensures Head(ShownStatus(req, c, o)) in Attempt(req, c, o).events
  {
    hide UpstreamProtoFor, Copy, Builds, RetryableStatus;
    FailsExactly(req, c, o);
    var r := Attempt(req, c, o);
    assert r.events[0].Head? ==> r.events[0] in r.events;
    assert |r.events| > 1 && r.events[1].Head? ==> r.events[1] in r.events;
  }

  /** The row of an attempt names its channel, mode and model, and the upstream's status once there was an answer; only an opened
      stream is committed. */
  lemma LogShows(req: Request, c: Candidate, o: Outcome)
    ensures var l := Attempt(req, c, o).log;
            && l.reqId == req.reqId && l.channel == Some(c.channel.id) && l.mode == Some(c.mode)
            && l.model == (if c.upstreamModel == "" then req.model else c.upstreamModel)
            && l.upstreamStatus == (if CannotBuild(req, c, o) then 0 else StatusOf(req, o))
            && (l.committed <==> req.stream && !CannotBuild(req, c, o) && StatusOf(req, o) == 200)
  {
    hide UpstreamProtoFor, Copy, RetryableStatus;
  }

  /** The problem in the row of an attempt that answers: the upstream's own words when it refused, a conversion that failed, or
      however the stream ended. */
  lemma ProblemShows(req: Request, c: Candidate, o: Outcome)
    requires Attempt(req, c, o).failed.None?
    ensures var l := Attempt(req, c, o).log;
            && (!Succeeded(req, o) ==> l.problem == Detail(if req.stream then o.stream.detail else o.reply.detail))
            && (Succeeded(req, o) && !req.stream ==>
                  l.problem == if c.mode == Converted && !o.reply.converts then ConvertFailed else NoProblem)
            && (Succeeded(req, o) && req.stream ==>
                  l.problem == Copy(c.mode == NativePassthrough, o.stream.steps, o.cancelled).1)
  {
    hide UpstreamProtoFor, Copy, RetryableStatus;
    FailsExactly(req, c, o);
  }

  // ---------- streams ----------

  /** The client stops taking bytes that are passed through to it. */
  predicate Refused(passthrough: bool, r: Read) {
    passthrough && r.bytes && !r.clientTakes
  }

  /** Read `k` is the last one. */
  predicate LastRead(passthrough: bool, steps: seq<Read>, k: nat) {
    && k < |steps| && (Refused(passthrough, steps[k]) || steps[k].end != More)
    && forall j :: 0 <= j < k ==> !Refused(passthrough, steps[j]) && steps[j].end == More
  }

  /** A stream ends with its last read: badly when the client is gone or the upstream broke off. */
  lemma {:induction false} StreamEnds(passthrough: bool, steps: seq<Read>, cancelled: bool, k: nat)
    requires LastRead(passthrough, steps, k)
    ensures Copy(passthrough, steps, cancelled).1 ==
            if Refused(passthrough, steps[k]) || (steps[k].end == Broken && cancelled) then ClientGone
            else if steps[k].end == Broken then StreamBroken else NoProblem
    ensures |Copy(passthrough, steps, cancelled).0| == Bytes(steps[..k]) + if steps[k].bytes && !Refused(passthrough, steps[k]) then 1 else 0
  {
    if k == 0 {
      assert steps[..0] == [];
    } else {
      var rest := steps[1..];
      assert rest[k - 1] == steps[k] && forall j :: 0 <= j < k - 1 ==> rest[j] == steps[j + 1];
      StreamEnds(passthrough, rest, cancelled, k - 1);
      assert !Refused(passthrough, steps[0]) && steps[0].end == More;
      assert steps[..k] == [steps[0]] + rest[..k - 1];
      BytesOfFirst(steps[0], rest[..k - 1]);
    }
  }

  /** How many of the reads brought bytes. */
  function Bytes(steps: seq<Read>): nat {
    if steps == [] then 0 else Bytes(steps[..|steps| - 1]) + if steps[|steps| - 1].bytes then 1 else 0
  }

  lemma {:induction false} BytesOfFirst(r: Read, steps: seq<Read>)
    ensures Bytes([r] + steps) == (if r.bytes then 1 else 0) + Bytes(steps)
  {
    if steps == [] {
      assert [r] + steps == [r] && [r][..0] == [];
    } else {
      assert ([r] + steps)[..|steps|] == [r] + steps[..|steps| - 1];
      BytesOfFirst(r, steps[..|steps| - 1]);
    }
  }

  // ---------- requests ----------

  /** The status a request ends with: 500 when a lookup failed, 503 without candidates, the last candidate's own answer, or 502
      when that one failed too; then the row says that the client is gone, or what failed last. */
  lemma RequestEnds(req: Request, channelsOk: bool, groupOk: bool, cs: seq<Candidate>, os: seq<Outcome>)
    requires |cs| == |os|
    ensures var es, n := Trace(req, channelsOk, groupOk, cs, os), Tries(req, cs, os);
            if !channelsOk || !groupOk then Head(500) in es
            else if cs == [] then Head(503) in es
            else
              var r := Attempt(req, cs[n - 1], os[n - 1]);
              if r.failed.None? then Head(ShownStatus(req, cs[n - 1], os[n - 1])) in es
              else Head(502) in es && Event.Row(r.log.(problem := if os[n - 1].cancelled then ClientGone else AllFailed(r.failed.value))) in es
  {
    hide Attempt, ShownStatus;
    if channelsOk && groupOk && cs != [] {
      LastAttemptDecides(req, cs, os);
    }
  }

  lemma {:induction false} LastAttemptDecides(req: Request, cs: seq<Candidate>, os: seq<Outcome>)
    requires |cs| == |os| > 0
    ensures var es, n := TryAll(req, cs, os), Tries(req, cs, os);
            var r := Attempt(req, cs[n - 1], os[n - 1]);
            if r.failed.None? then Head(ShownStatus(req, cs[n - 1], os[n - 1])) in es
            else Head(502) in es && Event.Row(r.log.(problem := if os[n - 1].cancelled then ClientGone else AllFailed(r.failed.value))) in es
  {
    hide Attempt, ShownStatus;
    var r := Attempt(req, cs[0], os[0]);
    if r.failed.None? {
      HeadShows(req, cs[0], os[0]);
    } else if os[0].cancelled || |cs| == 1 {
      OnlyOne(req, cs, os);
      GiveUpShows(r, os[0].cancelled);
    } else {
      LastAttemptDecides(req, cs[1..], os[1..]);
    }
  }

  lemma GiveUpShows(r: Result, cancelled: bool)
    requires r.failed.Some?
    ensures Head(502) in GiveUp(r, cancelled)
    ensures Event.Row(r.log.(problem := if cancelled then ClientGone else AllFailed(r.failed.value))) in GiveUp(r, cancelled)
  {
  }
}
