/** Generic facts about sequence concatenation, stated once and used by the
    inductive and layout proofs. */
module Seqs {
  /** Concatenation is associative. */
  lemma AppendAssoc<T>(x: seq<T>, y: seq<T>, z: seq<T>)
    ensures x + (y + z) == (x + y) + z
  {
  }

  /** A slice lying wholly in the second part of a concatenation. */
  lemma SliceOfSuffix<T>(a: seq<T>, b: seq<T>, i: int, j: int)
    requires |a| <= i <= j <= |a| + |b|
    ensures (a + b)[i .. j] == b[i - |a| .. j - |a|]
  {
  }

  /** Indexing a four-part concatenation `r` inside its second or third part. */
  lemma Sections<T>(r: seq<T>, a: seq<T>, b: seq<T>, c: seq<T>, d: seq<T>)
    requires r == a + b + c + d
    ensures forall i :: 0 <= i < |b| ==> r[|a| + i] == b[i]
    ensures forall i :: 0 <= i < |c| ==> r[|a| + |b| + i] == c[i]
  {
  }

  /** A slice lying wholly in the second part of a four-part concatenation. */
  lemma SliceOfSecond<T>(a: seq<T>, b: seq<T>, c: seq<T>, d: seq<T>, i: int, j: int)
    requires 0 <= i <= j <= |b|
    ensures (a + b + c + d)[|a| + i .. |a| + j] == b[i .. j]
  {
  }
}
