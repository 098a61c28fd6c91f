/** Facts about sequences that the trace proofs use: extending a prefix by one
    element and regrouping a concatenation. */
module Seqs {

  /** A prefix followed by the next element is the prefix one longer. */
  lemma PrefixSnoc<T>(s: seq<T>, i: nat)
    requires i < |s|
    ensures s[..i] + [s[i]] == s[..i + 1]
  {
  }

  /** Concatenation is associative. */
  lemma AppendAssoc<T>(x: seq<T>, y: seq<T>, z: seq<T>)
    ensures x + y + z == x + (y + z)
  {
  }
}
