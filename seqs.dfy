/** Small facts about sequences, kept apart so that each costs the verifier one step. */
module Seqs {

  /** Taking the first element off and putting it back, with one more at the end. */
  lemma ConsSnoc<T>(xs: seq<T>, x: T)
    requires xs != []
    ensures [xs[0]] + (xs[1..] + [x]) == xs + [x]
  {
  }

  /** A sequence is its first `n` elements followed by the others. */
  lemma TakeDrop<T>(xs: seq<T>, n: nat)
    requires n <= |xs|
    ensures xs[..n] + xs[n..] == xs
  {
  }

  /** Taking all the elements gives the sequence back. */
  lemma TakeAll<T>(xs: seq<T>)
    ensures xs[..|xs|] == xs
  {
  }

  /** Concatenation is associative when the last part is one element. */
  lemma AppendSnoc<T>(a: seq<T>, b: seq<T>, x: T)
    ensures a + (b + [x]) == (a + b) + [x]
  {
  }

  /** The empty sequence is a left unit of concatenation. */
  lemma EmptyAppend<T>(xs: seq<T>)
    ensures [] + xs == xs
  {
  }
}
