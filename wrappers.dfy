/**
 * Optional values, standing for Python's `None`-or-value results, and two
 * facts about concatenation that the proofs use as rewrite steps.
 */
module Wrappers {

  datatype Option<+T> = None | Some(value: T)

  /** Concatenation regroups to the right. */
  lemma Regroup<T>(a: seq<T>, b: seq<T>, c: seq<T>)
    ensures a + b + c == a + (b + c)
  {
  }

  /** The two halves of a concatenation are found again by slicing at the first one's length. */
  lemma Framed<T>(a: seq<T>, b: seq<T>)
    ensures (a + b)[..|a|] == a && (a + b)[|a|..] == b
  {
  }
}
