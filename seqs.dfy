/** Facts about sequences the solver does not find by itself in large contexts. */
module Seqs {
  /** Concatenation is associative. */
  lemma Concat3<T>(a: seq<T>, b: seq<T>, c: seq<T>)
    ensures a + b + c == a + (b + c)
  {
  }
}
