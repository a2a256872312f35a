/** Sequence identities the proofs about tables and records rely on, stated once so that
    the larger proofs can cite them without re-deriving them. */
module Seqs {

  /** Appending the head and then the tail appends the whole sequence. */
  lemma AppendHead<T>(d: seq<T>, s: seq<T>)
    requires s != []
    ensures d + [s[0]] + s[1..] == d + s
  {
  }

  /** A non-empty concatenation begins with the first part's head and continues with the
      first part's tail and the second part. */
  lemma ConcatTail<T>(a: seq<T>, b: seq<T>)
    requires a != []
    ensures (a + b)[0] == a[0] && (a + b)[1..] == a[1..] + b
  {
  }

  /** Concatenation is associative. */
  lemma ConcatAssoc<T>(a: seq<T>, b: seq<T>, c: seq<T>)
    ensures a + b + c == a + (b + c)
  {
  }

  /** The tail of a sequence holds the elements after the head, one position earlier. */
  lemma TailIndex<T>(s: seq<T>)
    requires s != []
    ensures forall i :: 0 <= i < |s| - 1 ==> s[1..][i] == s[i + 1]
  {
  }
}
