/** Facts about sequences that the filter proofs share. */
module Sequences {

  /** A non-empty list followed by another is its head followed by the rest. */
  lemma ConsAppend<T>(a: seq<T>, b: seq<T>)
    requires a != []
    ensures a + b == [a[0]] + (a[1..] + b)
  {
  }
}
