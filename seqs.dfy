/** Sequence helpers shared by the table flattening and the row builders. */
module Seqs {
  /** The sequences of `xss` one after the other, as repeated `list.extend` builds them. */
  function Concat<T>(xss: seq<seq<T>>): seq<T>
  {
    if xss == [] then [] else Concat(xss[..|xss| - 1]) + xss[|xss| - 1]
  }

  /** Extending by one more sequence appends exactly that sequence. */
  lemma ConcatSnoc<T>(xss: seq<seq<T>>, ys: seq<T>)
    ensures Concat(xss + [ys]) == Concat(xss) + ys
  {
    assert (xss + [ys])[..|xss|] == xss;
  }

  /** Extending the concatenation of the first n parts by part n gives that of the first n + 1. */
  lemma ConcatStep<T>(xss: seq<seq<T>>, n: nat)
    requires n < |xss|
    ensures Concat(xss[..n]) + xss[n] == Concat(xss[..n + 1])
  {
    assert xss[..n + 1] == xss[..n] + [xss[n]];
    ConcatSnoc(xss[..n], xss[n]);
  }

  /** An element of the concatenation is an element of one of the parts, and conversely. */
  lemma {:induction false} ConcatMember<T>(xss: seq<seq<T>>, x: T)
    ensures x in Concat(xss) <==> exists j :: 0 <= j < |xss| && x in xss[j]
  {
    if xss != [] {
      var n := |xss| - 1;
      ConcatMember(xss[..n], x);
      assert forall j :: 0 <= j < n ==> xss[..n][j] == xss[j];
    }
  }

  /** The length of the concatenation is the sum of the parts' lengths. */
  function TotalLength<T>(xss: seq<seq<T>>): nat
  {
    if xss == [] then 0 else TotalLength(xss[..|xss| - 1]) + |xss[|xss| - 1]|
  }

  lemma {:induction false} ConcatLength<T>(xss: seq<seq<T>>)
    ensures |Concat(xss)| == TotalLength(xss)
  {
    if xss != [] {
      ConcatLength(xss[..|xss| - 1]);
    }
  }

  /** Two lists of parts with the same part lengths have the same total length. */
  lemma {:induction false} TotalLengthPointwise<A, B>(xss: seq<seq<A>>, yss: seq<seq<B>>)
    requires |xss| == |yss|
    requires forall i :: 0 <= i < |xss| ==> |xss[i]| == |yss[i]|
    ensures TotalLength(xss) == TotalLength(yss)
  {
    if xss != [] {
      TotalLengthPointwise(xss[..|xss| - 1], yss[..|yss| - 1]);
    }
  }
}
