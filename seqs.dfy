/** Whole-sequence operations used by the list comprehensions and
    `reversed(...)` calls of the tracker. */
module Seqs {

  /** `[f(x) for x in s]`. */
  function MapSeq<T, U>(f: T -> U, s: seq<T>): (r: seq<U>)
    ensures |r| == |s| && forall i :: 0 <= i < |s| ==> r[i] == f(s[i])
  {
    seq(|s|, i requires 0 <= i < |s| => f(s[i]))
  }

  lemma MapSeqAppend<T, U>(f: T -> U, s: seq<T>, a: T)
    ensures MapSeq(f, s + [a]) == MapSeq(f, s) + [f(a)]
  {
  }

  /** `reversed(s)`, as a sequence. */
  function Reverse<T>(s: seq<T>): (r: seq<T>)
    ensures |r| == |s| && forall i :: 0 <= i < |s| ==> r[i] == s[|s| - 1 - i]
  {
    seq(|s|, i requires 0 <= i < |s| => s[|s| - 1 - i])
  }

  /** Reversing twice gives the sequence back. */
  lemma ReverseReverse<T>(s: seq<T>)
    ensures Reverse(Reverse(s)) == s
  {
  }

  /** Mapping commutes with reversal. */
  lemma MapSeqReverse<T, U>(f: T -> U, s: seq<T>)
    ensures MapSeq(f, Reverse(s)) == Reverse(MapSeq(f, s))
  {
  }
}
