/**
 * Facts about joining sequences that the proofs use as steps, stated once
 * for every element type so that each proof can name the regrouping it
 * needs instead of rediscovering it element by element.
 */
module Sequences {
  lemma AppendEmpty<T>(a: seq<T>)
    ensures a + [] == a && [] + a == a
  {
  }

  lemma AppendAssoc<T>(a: seq<T>, b: seq<T>, c: seq<T>)
    ensures a + b + c == a + (b + c)
  {
  }

  lemma SplitTriple<T>(x: T, y: T, z: T)
    ensures [x, y, z] == [x] + ([y] + [z])
  {
  }

  /** The first element of a sequence, then the others. */
  lemma ConsSplit<T>(x: T, a: seq<T>)
    ensures ([x] + a)[0] == x && ([x] + a)[1..] == a
  {
  }
}
