/** Concatenations, sums and selections of a sequence's elements, to say what a loop adds up without naming the loop. */
module Folds {
  function Map<T, U>(f: T -> U, s: seq<T>): (r: seq<U>)
    ensures |r| == |s| && forall i :: 0 <= i < |s| ==> r[i] == f(s[i])
  {
    seq(|s|, i requires 0 <= i < |s| => f(s[i]))
  }

  function Filter<T>(p: T -> bool, s: seq<T>): seq<T> {
    if s == [] then [] else Filter(p, s[..|s| - 1]) + if p(s[|s| - 1]) then [s[|s| - 1]] else []
  }

  function Concat(texts: seq<string>): string {
    if texts == [] then "" else Concat(texts[..|texts| - 1]) + texts[|texts| - 1]
  }

  function SumOf(s: seq<int>): int {
    if s == [] then 0 else SumOf(s[..|s| - 1]) + s[|s| - 1]
  }

  function SumOfReals(s: seq<real>): real {
    if s == [] then 0.0 else SumOfReals(s[..|s| - 1]) + s[|s| - 1]
  }

  lemma MapFront<T, U>(f: T -> U, s: seq<T>)
    requires s != []
    ensures Map(f, s)[..|s| - 1] == Map(f, s[..|s| - 1]) && Map(f, s)[|s| - 1] == f(s[|s| - 1])
  {
  }

  lemma MapConcat<T, U>(f: T -> U, a: seq<T>, b: seq<T>)
    ensures Map(f, a + b) == Map(f, a) + Map(f, b)
  {
  }

  lemma MapSnoc<T, U>(f: T -> U, s: seq<T>, x: T)
    ensures Map(f, s + [x]) == Map(f, s) + [f(x)]
  {
  }

  lemma FilterLast<T>(p: T -> bool, s: seq<T>)
    requires s != []
    ensures Filter(p, s) == if p(s[|s| - 1]) then Filter(p, s[..|s| - 1]) + [s[|s| - 1]] else Filter(p, s[..|s| - 1])
  {
  }

  lemma {:induction false} ConcatOfBoth(a: seq<string>, b: seq<string>)
    ensures Concat(a + b) == Concat(a) + Concat(b)
  {
    if b == [] {
      assert a + b == a;
    } else {
      assert (a + b)[..|a + b| - 1] == a + b[..|b| - 1];
      ConcatOfBoth(a, b[..|b| - 1]);
    }
  }

  lemma ConcatMap<T>(f: T -> string, a: seq<T>, b: seq<T>)
    ensures Concat(Map(f, a + b)) == Concat(Map(f, a)) + Concat(Map(f, b))
  {
    hide Concat;
    MapConcat(f, a, b);
    ConcatOfBoth(Map(f, a), Map(f, b));
  }

  lemma ConcatMapOne<T>(f: T -> string, x: T)
    ensures Concat(Map(f, [x])) == f(x) && Concat(Map(f, [])) == ""
  {
    assert Map(f, [x]) == [f(x)];
    assert [f(x)][..0] == [];
  }
}
