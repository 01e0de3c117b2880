/** What the meter counts for one session, said without its steps. */
module ThroughputLaws {
  import opened Throughput

  /** The totals a session reported since it began, and zero. */
  function Reported(ops: seq<Op>, id: nat): seq<int> {
    if ops == [] then [0]
    else Reported(ops[..|ops| - 1], id) + match ops[|ops| - 1] case Update(other, total) => (if other == id then [total] else []) case _ => []
  }

  /** No session is begun in these operations but by others, and this one is not closed. */
  predicate StaysOpen(ops: seq<Op>, id: nat) {
    forall i :: 0 <= i < |ops| ==> ops[i] != End(id) && !(ops[i].Finish? && ops[i].id == id)
  }

  predicate IsMaximum(m: int, s: seq<int>) {
    m in s && forall i :: 0 <= i < |s| ==> s[i] <= m
  }

  function After(s: State, ops: seq<Op>): (s': State)
    requires |s.buckets| > 0
    ensures |s'.buckets| > 0
  {
    if ops == [] then s else Step(After(s, ops[..|ops| - 1]), ops[|ops| - 1])
  }

  lemma MaximumSnoc(m: int, s: seq<int>, x: int)
    requires IsMaximum(m, s)
    ensures IsMaximum(if x > m then x else m, s + [x])
  {
    assert (s + [x])[|s|] == x;
    assert forall i :: 0 <= i < |s| ==> (s + [x])[i] == s[i];
  }

  /** A session that began and was not closed since counts the largest total it reported, whatever others do in between. */
  lemma {:induction false} LiveSessionsCountTheirLargest(s: State, ops: seq<Op>)
    requires |s.buckets| > 0 && Numbered(s) && StaysOpen(ops, s.last + 1)
    ensures var id, s' := s.last + 1, After(Step(s, Begin), ops);
            id !in s.sess && id in s'.sess && IsMaximum(s'.sess[id], Reported(ops, id)) && s'.last >= id
  {
    var id := s.last + 1;
    if ops == [] {
      assert IsMaximum(0, [0]);
    } else {
      var init, op := ops[..|ops| - 1], ops[|ops| - 1];
      assert StaysOpen(init, id);
      LiveSessionsCountTheirLargest(s, init);
      var before := After(Step(s, Begin), init);
      if op.Update? && op.id == id {
        MaximumSnoc(before.sess[id], Reported(init, id), op.total);
        assert 0 in Reported(init, id) by { ReportedHasZero(init, id); }
      } else {
        assert Reported(ops, id) == Reported(init, id);
      }
    }
  }

  lemma {:induction false} ReportedHasZero(ops: seq<Op>, id: nat)
    ensures 0 in Reported(ops, id)
  {
    if ops != [] {
      ReportedHasZero(ops[..|ops| - 1], id);
    }
  }

  /** Tokens counted in an interval leave with it: after a rotation the newest bucket has them and counting starts over. */
  lemma RotationMovesTheCount(s: State)
    requires |s.buckets| > 0
    ensures var s' := Step(s, Rotate);
            s'.cur == 0 && |s'.buckets| == |s.buckets| && s'.buckets[|s'.buckets| - 1] == s.cur
            && forall i :: 0 <= i < |s.buckets| - 1 ==> s'.buckets[i] == s.buckets[i + 1]
  {
  }
}
