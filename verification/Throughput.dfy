/** The live token meter: per-session totals turned into a sliding window of interval counts. */
module Throughput {
  /** `rotated` is every count ever pushed out of `cur`; the class keeps only the last `window` of them. */
  datatype State = State(cur: int, buckets: seq<int>, sess: map<nat, int>, last: nat, rotated: seq<int>)

  datatype Op = Begin | Update(id: nat, total: int) | End(id: nat) | Finish(id: nat, exact: int) | Add(n: int) | Rotate

  function Zeros(n: nat): (z: seq<int>)
    ensures |z| == n && forall i :: 0 <= i < n ==> z[i] == 0
  {
    seq(n, i => 0)
  }

  function Initial(window: nat): State {
    State(0, Zeros(window), map[], 0, [])
  }

  function Step(s: State, op: Op): State
    requires |s.buckets| > 0
  {
    match op
    case Begin => s.(last := s.last + 1, sess := s.sess[s.last + 1 := 0])
    case Update(id, total) =>
      if total > 0 && id in s.sess && total > s.sess[id] then s.(sess := s.sess[id := total], cur := s.cur + (total - s.sess[id])) else s
    case End(id) => s.(sess := s.sess - {id})
    case Finish(id, exact) => if id in s.sess then s.(sess := s.sess - {id}, cur := s.cur + (exact - s.sess[id])) else s
    case Add(n) => if n > 0 then s.(cur := s.cur + n) else s
    case Rotate => s.(buckets := s.buckets[1..] + [s.cur], cur := 0, rotated := s.rotated + [s.cur])
  }

  function Run(window: nat, ops: seq<Op>): (s: State)
    requires window > 0
    ensures |s.buckets| == window
  {
    if ops == [] then Initial(window) else Step(Run(window, ops[..|ops| - 1]), ops[|ops| - 1])
  }

  // ---------- conservation ----------

  function Sum(s: seq<int>): int {
    if s == [] then 0 else Sum(s[..|s| - 1]) + s[|s| - 1]
  }

  function Total(sess: map<nat, int>, id: nat): int {
    if id in sess then sess[id] else 0
  }

  /** The totals of the sessions numbered up to `n`. */
  function Live(sess: map<nat, int>, n: nat): int {
    if n == 0 then 0 else Live(sess, n - 1) + Total(sess, n)
  }

  /** What is settled for good: the exact totals of finished sessions, the last totals of ended ones, and one-off adds. */
  function Settled(window: nat, ops: seq<Op>): int
    requires window > 0
  {
    if ops == [] then 0
    else
      var before, s := Settled(window, ops[..|ops| - 1]), Run(window, ops[..|ops| - 1]);
      match ops[|ops| - 1]
      case Finish(id, exact) => before + if id in s.sess then exact else 0
      case End(id) => before + Total(s.sess, id)
      case Add(n) => before + if n > 0 then n else 0
      case _ => before
  }

  predicate Numbered(s: State) {
    forall id :: id in s.sess ==> 0 < id <= s.last
  }

  lemma {:induction false} LiveUpdate(sess: map<nat, int>, n: nat, id: nat, total: int)
    ensures Live(sess[id := total], n) == Live(sess, n) + if 0 < id <= n then total - Total(sess, id) else 0
  {
    if n > 0 {
      LiveUpdate(sess, n - 1, id, total);
    }
  }

  lemma {:induction false} LiveRemove(sess: map<nat, int>, n: nat, id: nat)
    ensures Live(sess - {id}, n) == Live(sess, n) - if 0 < id <= n then Total(sess, id) else 0
  {
    if n > 0 {
      LiveRemove(sess, n - 1, id);
    }
  }

  lemma SumSnoc(s: seq<int>, x: int)
    ensures Sum(s + [x]) == Sum(s) + x
  {
    assert (s + [x])[..|s|] == s;
  }

  lemma StepConserves(s: State, op: Op)
    requires |s.buckets| > 0 && Numbered(s)
    ensures var s' := Step(s, op);
            && Numbered(s')
            && Sum(s'.rotated) + s'.cur - Live(s'.sess, s'.last) ==
               Sum(s.rotated) + s.cur - Live(s.sess, s.last) +
               (match op
                case Finish(id, exact) => if id in s.sess then exact else 0
                case End(id) => Total(s.sess, id)
                case Add(n) => if n > 0 then n else 0
                case _ => 0)
  {
    match op
    case Begin => LiveUpdate(s.sess, s.last, s.last + 1, 0);
    case Update(id, total) => LiveUpdate(s.sess, s.last, id, total);
    case End(id) => LiveRemove(s.sess, s.last, id);
    case Finish(id, exact) => LiveRemove(s.sess, s.last, id);
    case Add(_) =>
    case Rotate => SumSnoc(s.rotated, s.cur);
  }

  /** Over every run: what was rotated out and what is still counting make up the live sessions' totals and all that is settled. */
  lemma {:induction false} TokensAreConserved(window: nat, ops: seq<Op>)
    requires window > 0
    ensures var s := Run(window, ops);
            Numbered(s) && Sum(s.rotated) + s.cur == Live(s.sess, s.last) + Settled(window, ops)
  {
    if ops != [] {
      TokensAreConserved(window, ops[..|ops| - 1]);
      StepConserves(Run(window, ops[..|ops| - 1]), ops[|ops| - 1]);
    }
  }

  /** The last `n` of a sequence that had `n` zeros before it. */
  function LastOf(n: nat, s: seq<int>): (r: seq<int>)
    ensures |r| == n
  {
    (Zeros(n) + s)[|s|..]
  }

  /** The buckets are always the last `window` counts rotated out, zeros before the first. */
  lemma {:induction false} BucketsAreTheLastCounts(window: nat, ops: seq<Op>)
    requires window > 0
    ensures Run(window, ops).buckets == LastOf(window, Run(window, ops).rotated)
  {
    if ops != [] {
      var s := Run(window, ops[..|ops| - 1]);
      BucketsAreTheLastCounts(window, ops[..|ops| - 1]);
      var all := Zeros(window) + s.rotated;
      assert Zeros(window) + (s.rotated + [s.cur]) == all + [s.cur];
      assert (all + [s.cur])[|s.rotated| + 1..] == all[|s.rotated|..][1..] + [s.cur];
    } else {
      assert Zeros(window) + [] == Zeros(window);
    }
  }

  // ---------- the meter ----------

  class Meter {
    var cur: int
    const buckets: array<int>
    var sess: map<nat, int>
    var last: nat
    ghost var rotated: seq<int>

    ghost function Contents(): State
      reads this, buckets
    {
      State(cur, buckets[..], sess, last, rotated)
    }

    constructor (window: nat)
      requires window > 0
      ensures Contents() == Initial(window) && fresh(buckets)
    {
      cur := 0;
      buckets := new int[window](i => 0);
      sess, last, rotated := map[], 0, [];
      new;
      assert buckets[..] == Zeros(window);
    }

    method StreamBegin() returns (id: nat)
      requires buckets.Length > 0
      modifies this
      ensures Contents() == Step(old(Contents()), Begin) && id == last
    {
      last := last + 1;
      id := last;
      sess := sess[id := 0];
    }

    method StreamUpdate(id: nat, total: int)
      requires buckets.Length > 0
      modifies this
      ensures Contents() == Step(old(Contents()), Update(id, total))
    {
      if total <= 0 {
        return;
      }
      if id !in sess {
        return;
      }
      var prev := sess[id];
      if total > prev {
        sess := sess[id := total];
        cur := cur + (total - prev);
      }
    }

    method StreamEnd(id: nat)
      requires buckets.Length > 0
      modifies this
      ensures Contents() == Step(old(Contents()), End(id))
    {
      sess := sess - {id};
    }

    method StreamFinish(id: nat, exact: int)
      requires buckets.Length > 0
      modifies this
      ensures Contents() == Step(old(Contents()), Finish(id, exact))
    {
      if id !in sess {
        return;
      }
      var prev := sess[id];
      sess := sess - {id};
      if exact - prev != 0 {
        cur := cur + (exact - prev);
      }
    }

    method AddTokens(n: int)
      requires buckets.Length > 0
      modifies this
      ensures Contents() == Step(old(Contents()), Add(n))
    {
      if n <= 0 {
        return;
      }
      cur := cur + n;
    }

    /** Shift the window in place, put the current count last, and publish the window's sum, never below zero. */
    method RotateOut() returns (sum: int, active: nat)
      requires buckets.Length > 0
      modifies this, buckets
      ensures Contents() == Step(old(Contents()), Rotate)
      ensures sum == (if Sum(buckets[..]) < 0 then 0 else Sum(buckets[..])) && sum >= 0 && active == |sess|
    {
      var n := buckets.Length;
      for i := 0 to n - 1
        invariant forall k :: 0 <= k < i ==> buckets[k] == old(buckets[k + 1])
        invariant forall k :: i <= k < n ==> buckets[k] == old(buckets[k])
        invariant cur == old(cur) && sess == old(sess) && last == old(last) && rotated == old(rotated)
      {
        buckets[i] := buckets[i + 1];
      }
      buckets[n - 1] := cur;
      assert buckets[..] == old(buckets[..])[1..] + [old(cur)];
      rotated := rotated + [cur];
      cur := 0;
      active := |sess|;
      sum := SumBuckets();
      if sum < 0 {
        sum := 0;
      }
    }

    method SumBuckets() returns (sum: int)
      ensures sum == Sum(buckets[..])
    {
      sum := 0;
      for i := 0 to buckets.Length
        invariant sum == Sum(buckets[..i])
      {
        assert buckets[..i + 1][..i] == buckets[..i];
        sum := sum + buckets[i];
      }
      assert buckets[..buckets.Length] == buckets[..];
    }
  }
}
