/** Orders of a sequence's indices, and stable sorting by a lexicographic key. */
module Permutations {
  datatype Key = Key(major: int, middle: int, minor: int)

  predicate Leq(a: Key, b: Key) {
    a.major < b.major || (a.major == b.major && (a.middle < b.middle || (a.middle == b.middle && a.minor <= b.minor)))
  }

  function Indices(n: nat): (s: seq<nat>)
    ensures |s| == n && forall i :: 0 <= i < n ==> s[i] == i
  {
    seq(n, i => i)
  }

  /** Every index of a sequence of length `n`, each once. */
  predicate IsOrder(order: seq<nat>, n: nat) {
    multiset(order) == multiset(Indices(n))
  }

  predicate InRange(order: seq<nat>, n: nat) {
    forall k :: 0 <= k < |order| ==> order[k] < n
  }

  /** The elements of `s` in the given order. */
  function Pick<T>(s: seq<T>, order: seq<nat>): (r: seq<T>)
    requires InRange(order, |s|)
    ensures |r| == |order| && forall k :: 0 <= k < |r| ==> r[k] == s[order[k]]
  {
    seq(|order|, k requires 0 <= k < |order| => s[order[k]])
  }

  function Without<T>(s: seq<T>, p: nat): (r: seq<T>)
    requires p < |s|
    ensures |r| == |s| - 1
    ensures forall k :: 0 <= k < p ==> r[k] == s[k]
    ensures forall k :: p <= k < |r| ==> r[k] == s[k + 1]
  {
    s[..p] + s[p + 1..]
  }

  lemma SplitOff<T>(s: seq<T>, p: nat)
    requires p < |s|
    ensures multiset(s) == multiset(Without(s, p)) + multiset{s[p]}
  {
    assert s == s[..p] + [s[p]] + s[p + 1..];
  }

  lemma PositionOf<T>(s: seq<T>, x: T) returns (p: nat)
    requires x in multiset(s)
    ensures p < |s| && s[p] == x
  {
    assert x in s;
    p :| p < |s| && s[p] == x;
  }

  lemma PickWithout<T>(s: seq<T>, order: seq<nat>, p: nat)
    requires InRange(order, |s|) && p < |order|
    ensures InRange(Without(order, p), |s|) && Pick(s, Without(order, p)) == Without(Pick(s, order), p)
  {
  }

  lemma {:induction false} PickPermutes<T>(s: seq<T>, a: seq<nat>, b: seq<nat>)
    requires multiset(a) == multiset(b) && InRange(a, |s|) && InRange(b, |s|)
    ensures multiset(Pick(s, a)) == multiset(Pick(s, b))
    decreases |a|
  {
    hide Pick, Without;
    assert |multiset(a)| == |a| && |multiset(b)| == |b|;
    if a != [] {
      var n := |a| - 1;
      assert a[n] in multiset(a);
      var p := PositionOf(b, a[n]);
      SplitOff(a, n);
      SplitOff(b, p);
      CancelOne(multiset(Without(a, n)), multiset(Without(b, p)), a[n]);
      PickWithout(s, a, n);
      PickWithout(s, b, p);
      PickPermutes(s, Without(a, n), Without(b, p));
      SplitOff(Pick(s, a), n);
      SplitOff(Pick(s, b), p);
    } else {
      assert b == [];
    }
  }

  lemma CancelOne<T>(a: multiset<T>, b: multiset<T>, x: T)
    requires a + multiset{x} == b + multiset{x}
    ensures a == b
  {
    assert a == a + multiset{x} - multiset{x};
    assert b == b + multiset{x} - multiset{x};
  }

  lemma OrderInRange(order: seq<nat>, n: nat)
    requires IsOrder(order, n)
    ensures |order| == n && InRange(order, n)
  {
    assert |multiset(order)| == |order| && |multiset(Indices(n))| == n;
    forall k | 0 <= k < |order|
      ensures order[k] < n
    {
      assert order[k] in multiset(order);
      var p := PositionOf(Indices(n), order[k]);
    }
  }

  /** Picking in any order of the indices permutes the sequence. */
  lemma PickAll<T>(s: seq<T>, order: seq<nat>)
    requires IsOrder(order, |s|) && InRange(order, |s|)
    ensures multiset(Pick(s, order)) == multiset(s)
  {
    PickPermutes(s, order, Indices(|s|));
    assert Pick(s, Indices(|s|)) == s;
  }

  // ---------- stable sorting ----------

  predicate Sorted<T(!new)>(key: T -> Key, s: seq<T>) {
    forall i, j :: 0 <= i < j < |s| ==> Leq(key(s[i]), key(s[j]))
  }

  function Insert<T(!new)>(key: T -> Key, x: T, s: seq<T>): seq<T> {
    if s == [] || Leq(key(x), key(s[0])) then [x] + s else [s[0]] + Insert(key, x, s[1..])
  }

  /** What sort.SliceStable leaves. */
  function SortStable<T(!new)>(key: T -> Key, s: seq<T>): seq<T> {
    if s == [] then [] else Insert(key, s[0], SortStable(key, s[1..]))
  }

  lemma {:induction false} InsertSorts<T(!new)>(key: T -> Key, x: T, s: seq<T>)
    requires Sorted(key, s)
    ensures multiset(Insert(key, x, s)) == multiset{x} + multiset(s)
    ensures Sorted(key, Insert(key, x, s))
  {
    if s == [] {
    } else if Leq(key(x), key(s[0])) {
      LeastFirst(key, x, s);
    } else {
      assert s == [s[0]] + s[1..];
      InsertSorts(key, x, s[1..]);
      LeastOfInserted(key, x, s);
      LeastFirst(key, s[0], Insert(key, x, s[1..]));
    }
  }

  lemma LeastFirst<T(!new)>(key: T -> Key, x: T, s: seq<T>)
    requires Sorted(key, s) && (s != [] ==> Leq(key(x), key(s[0])))
    ensures Sorted(key, [x] + s) && multiset([x] + s) == multiset{x} + multiset(s)
  {
  }

  lemma LeastOfInserted<T(!new)>(key: T -> Key, x: T, s: seq<T>)
    requires s != [] && Sorted(key, s) && Leq(key(s[0]), key(x))
    ensures Insert(key, x, s[1..]) != [] && Leq(key(s[0]), key(Insert(key, x, s[1..])[0]))
  {
  }

  lemma {:induction false} SortSorts<T(!new)>(key: T -> Key, s: seq<T>)
    ensures multiset(SortStable(key, s)) == multiset(s)
    ensures Sorted(key, SortStable(key, s))
  {
    if s != [] {
      SortSorts(key, s[1..]);
      InsertSorts(key, s[0], SortStable(key, s[1..]));
      assert s == [s[0]] + s[1..];
    }
  }
}
