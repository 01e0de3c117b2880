/** The cached price index under concurrent lookups and price writes. */
module PriceCache {
  import opened Common

  /** A lookup checks the cache under the read lock; when that fails it takes the write lock, checks again, reads the
      table and installs the index. */
  datatype Phase = Starting | Waiting | Holding | HaveRows(version: nat) | Done(version: nat)

  /** `needed` is the latest table state whose write had returned when the lookup started. */
  datatype Reader = Reader(needed: nat, phase: Phase)

  /** A price write commits to the table, then invalidates the cache, then returns. */
  datatype Writer = Writer(version: nat, returned: bool)

  /** `table` counts the committed writes; `index` is the table state the cached index was built from. */
  datatype State = State(table: nat, index: Option<nat>, stale: bool, inTime: bool, holder: Option<nat>,
                         readers: seq<Reader>, writers: seq<Writer>, returned: nat)

  const INITIAL := State(0, None, false, false, None, [], [], 0)

  datatype Step =
    | Start
    | FastCheck(r: nat)
    | Acquire(r: nat)
    | SecondCheck(r: nat)
    | ReadTable(r: nat)
    | Install(r: nat)
    | Commit
    | Invalidate(w: nat)
    | Expire

  predicate Usable(s: State) {
    !s.stale && s.index.Some? && s.inTime
  }

  predicate InPhase(s: State, r: nat, p: Phase) {
    r < |s.readers| && s.readers[r].phase == p
  }

  /** The read lock and the write lock exclude each other; commits to the table need neither. */
  predicate Enabled(s: State, step: Step) {
    match step
    case FastCheck(r) => InPhase(s, r, Starting) && s.holder.None?
    case Acquire(r) => InPhase(s, r, Waiting) && s.holder.None?
    case SecondCheck(r) => InPhase(s, r, Holding) && s.holder == Some(r)
    case ReadTable(r) => InPhase(s, r, Holding) && s.holder == Some(r) && !Usable(s)
    case Install(r) => r < |s.readers| && s.readers[r].phase.HaveRows? && s.holder == Some(r)
    case Invalidate(w) => w < |s.writers| && !s.writers[w].returned && s.holder.None?
    case _ => true
  }

  function Move(s: State, r: nat, p: Phase): State
    requires r < |s.readers|
  {
    s.(readers := s.readers[r := s.readers[r].(phase := p)])
  }

  function Next(s: State, step: Step): State
    requires Enabled(s, step)
  {
    match step
    case Start => s.(readers := s.readers + [Reader(s.returned, Starting)])
    case FastCheck(r) => if Usable(s) then Move(s, r, Done(s.index.value)) else Move(s, r, Waiting)
    case Acquire(r) => Move(s, r, Holding).(holder := Some(r))
    case SecondCheck(r) => if Usable(s) then Move(s, r, Done(s.index.value)).(holder := None) else s
    case ReadTable(r) => Move(s, r, HaveRows(s.table))
    case Install(r) =>
      var v := s.readers[r].phase.version;
      Move(s, r, Done(v)).(index := Some(v), stale := false, inTime := true, holder := None)
    case Commit => s.(table := s.table + 1, writers := s.writers + [Writer(s.table + 1, false)])
    case Invalidate(w) =>
      var v := s.writers[w].version;
      s.(stale := true, writers := s.writers[w := s.writers[w].(returned := true)], returned := if v > s.returned then v else s.returned)
    case Expire => s.(inTime := false)
  }

  predicate ReaderOk(s: State, r: nat)
    requires r < |s.readers|
  {
    var reader := s.readers[r];
    && reader.needed <= s.returned
    && (reader.phase.HaveRows? ==> s.holder == Some(r) && s.returned <= reader.phase.version <= s.table)
    && (reader.phase.Done? ==> reader.needed <= reader.phase.version <= s.table)
  }

  /** A cached index that is not marked stale was built no earlier than the last write that returned. */
  predicate Inv(s: State) {
    && s.returned <= s.table
    && (forall w :: 0 <= w < |s.writers| ==> s.writers[w].version <= s.table)
    && (s.index.Some? ==> s.index.value <= s.table && (!s.stale ==> s.returned <= s.index.value))
    && forall r :: 0 <= r < |s.readers| ==> ReaderOk(s, r)
  }

  lemma StepKeepsInv(s: State, step: Step)
    requires Inv(s) && Enabled(s, step)
    ensures Inv(Next(s, step))
  {
    if step.Install? {
      assert ReaderOk(s, step.r);
    }
    var s' := Next(s, step);
    forall r | 0 <= r < |s'.readers|
      ensures ReaderOk(s', r)
    {
      ReaderStaysOk(s, step, r);
    }
    hide ReaderOk;
  }

  lemma ReaderStaysOk(s: State, step: Step, r: nat)
    requires Inv(s) && Enabled(s, step) && r < |Next(s, step).readers|
    ensures ReaderOk(Next(s, step), r)
  {
    if r < |s.readers| {
      assert ReaderOk(s, r);
      OldReaderStaysOk(s, step, r);
    }
  }

  lemma OldReaderStaysOk(s: State, step: Step, r: nat)
    requires Enabled(s, step) && r < |s.readers| && ReaderOk(s, r) && s.returned <= s.table
    requires s.index.Some? ==> s.index.value <= s.table && (!s.stale ==> s.returned <= s.index.value)
    ensures r < |Next(s, step).readers| && ReaderOk(Next(s, step), r)
  {
  }

  /** The states some interleaving leads to. */
  predicate Reaches(s: State, steps: seq<Step>, s': State)
    decreases |steps|
  {
    if steps == [] then s' == s else Enabled(s, steps[0]) && Reaches(Next(s, steps[0]), steps[1..], s')
  }

  lemma {:induction false} ReachKeepsInv(s: State, steps: seq<Step>, s': State)
    requires Inv(s) && Reaches(s, steps, s')
    ensures Inv(s')
    decreases |steps|
  {
    if steps != [] {
      StepKeepsInv(s, steps[0]);
      ReachKeepsInv(Next(s, steps[0]), steps[1..], s');
    }
  }

  /** In every interleaving a lookup that has finished used an index built from the table as the last write that had
      returned when the lookup started left it, or later. */
  lemma LookupSeesReturnedWrites(steps: seq<Step>, s: State, r: nat)
    requires Reaches(INITIAL, steps, s) && r < |s.readers| && s.readers[r].phase.Done?
    ensures s.readers[r].needed <= s.readers[r].phase.version <= s.table
  {
    ReachKeepsInv(INITIAL, steps, s);
    assert ReaderOk(s, r);
  }

  /** A commit that has not invalidated yet may be missed: here a lookup answers from before a committed write. */
  lemma CommitAloneIsNotSeen() returns (steps: seq<Step>, s: State)
    ensures Reaches(INITIAL, steps, s)
    ensures |s.readers| == 2 && s.readers[1].phase == Done(0) && s.table == 1 && s.returned == 0
  {
    var s1 := Next(INITIAL, Start);
    var s2 := Next(s1, FastCheck(0));
    var s3 := Next(s2, Acquire(0));
    var s4 := Next(s3, ReadTable(0));
    var s5 := Next(s4, Install(0));
    assert s5 == State(0, Some(0), false, true, None, [Reader(0, Done(0))], [], 0);
    hide Reaches;
    s := CommitThenRead(s5);
    steps := [Commit] + ([Start] + ([FastCheck(1)] + []));
    ReachesBy(s4, Install(0), steps, s);
    steps := [Install(0)] + steps;
    ReachesBy(s3, ReadTable(0), steps, s);
    steps := [ReadTable(0)] + steps;
    ReachesBy(s2, Acquire(0), steps, s);
    steps := [Acquire(0)] + steps;
    ReachesBy(s1, FastCheck(0), steps, s);
    steps := [FastCheck(0)] + steps;
    ReachesBy(INITIAL, Start, steps, s);
    steps := [Start] + steps;
  }

  lemma CommitThenRead(s5: State) returns (s: State)
    requires s5 == State(0, Some(0), false, true, None, [Reader(0, Done(0))], [], 0)
    ensures Reaches(s5, [Commit] + ([Start] + ([FastCheck(1)] + [])), s)
    ensures |s.readers| == 2 && s.readers[1].phase == Done(0) && s.table == 1 && s.returned == 0
  {
    var s6 := Next(s5, Commit);
    var s7 := Next(s6, Start);
    s := Next(s7, FastCheck(1));
    ReachesItself(s);
    hide Reaches;
    ReachesBy(s7, FastCheck(1), [], s);
    ReachesBy(s6, Start, [FastCheck(1)] + [], s);
    ReachesBy(s5, Commit, [Start] + ([FastCheck(1)] + []), s);
  }

  lemma ReachesItself(s: State)
    ensures Reaches(s, [], s)
  {
  }

  lemma ReachesBy(s: State, step: Step, rest: seq<Step>, s': State)
    requires Enabled(s, step) && Reaches(Next(s, step), rest, s')
    ensures Reaches(s, [step] + rest, s')
  {
    assert ([step] + rest)[1..] == rest;
  }
}
