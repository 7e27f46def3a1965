/** Small facts about sequences used when a list is built up one append at a time. */
module Seqs {
  /** Appending is associative: appending `b` then `c` is appending `b + c`. */
  lemma AppendAssoc<T>(a: seq<T>, b: seq<T>, c: seq<T>)
    ensures a + b + c == a + (b + c)
  {
  }
}
