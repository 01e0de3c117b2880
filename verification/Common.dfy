/** The optional value and the facts about sequences that several modules use. */
module Common {
  datatype Option<+T> = None | Some(value: T)

  lemma Associate<T>(a: seq<T>, b: seq<T>, c: seq<T>)
    ensures a + (b + c) == a + b + c
  {
  }

  /** A sequence is its front and its last element, and nothing else is. */
  lemma SnocIs<T>(init: seq<T>, last: T, whole: seq<T>)
    requires whole != []
    ensures init + [last] == whole <==> init == whole[..|whole| - 1] && last == whole[|whole| - 1]
  {
    assert whole == whole[..|whole| - 1] + [whole[|whole| - 1]];
  }

  lemma InSnoc<T>(s: seq<T>, last: T)
    ensures forall x :: x in s + [last] <==> x in s || x == last
  {
  }
}
