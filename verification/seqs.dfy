/** Order-preserving selection from a sequence, shared by every filter in the core. */
module Seqs {

  /** `a` can be obtained from `b` by deleting elements (order kept). */
  ghost predicate IsSubsequence<T>(a: seq<T>, b: seq<T>)
    decreases |b|
  {
    |a| == 0 || (|b| > 0 && if a[0] == b[0] then IsSubsequence(a[1..], b[1..]) else IsSubsequence(a, b[1..]))
  }

  /** How many elements of `xs` satisfy `p`. */
  function Count<T>(xs: seq<T>, p: T -> bool): nat
  {
    if |xs| == 0 then 0 else (if p(xs[0]) then 1 else 0) + Count(xs[1..], p)
  }

  /**
   * The elements of `xs` that satisfy `p`, in their original order: every
   * element kept passes, every passing element is kept (as often as it occurs),
   * and nothing is reordered.
   */
  function Filter<T(==,!new)>(xs: seq<T>, p: T -> bool): (r: seq<T>)
    ensures forall x :: x in r <==> x in xs && p(x)
    ensures forall i :: 0 <= i < |r| ==> p(r[i])
    ensures |r| == Count(xs, p)
    ensures IsSubsequence(r, xs)
  {
    if |xs| == 0 then []
    else if p(xs[0]) then [xs[0]] + Filter(xs[1..], p)
    else Filter(xs[1..], p)
  }

  /** A filter that keeps nothing is empty, and one that keeps everything is the identity. */
  lemma {:induction false} FilterAllOrNothing<T(!new)>(xs: seq<T>, p: T -> bool)
    ensures (forall i :: 0 <= i < |xs| ==> p(xs[i])) ==> Filter(xs, p) == xs
    ensures (forall i :: 0 <= i < |xs| ==> !p(xs[i])) ==> Filter(xs, p) == []
    decreases |xs|
  {
    if |xs| > 0 {
      FilterAllOrNothing(xs[1..], p);
      if forall i :: 0 <= i < |xs| ==> p(xs[i]) {
        assert forall i :: 0 <= i < |xs[1..]| ==> p(xs[1..][i]) by {
          forall i | 0 <= i < |xs[1..]| ensures p(xs[1..][i]) { assert xs[1..][i] == xs[i + 1]; }
        }
      }
      if forall i :: 0 <= i < |xs| ==> !p(xs[i]) {
        assert forall i :: 0 <= i < |xs[1..]| ==> !p(xs[1..][i]) by {
          forall i | 0 <= i < |xs[1..]| ensures !p(xs[1..][i]) { assert xs[1..][i] == xs[i + 1]; }
        }
      }
    }
  }

  /** Filtering distributes over concatenation. */
  lemma {:induction false} FilterAppend<T(!new)>(a: seq<T>, b: seq<T>, p: T -> bool)
    ensures Filter(a + b, p) == Filter(a, p) + Filter(b, p)
    decreases |a|
  {
    if |a| == 0 {
      assert a + b == b;
    } else {
      assert (a + b)[1..] == a[1..] + b;
      FilterAppend(a[1..], b, p);
    }
  }

  /** The first element kept is the first element of `xs` that passes. */
  lemma {:induction false} FilterHead<T(!new)>(xs: seq<T>, p: T -> bool) returns (i: nat)
    requires |Filter(xs, p)| > 0
    ensures i < |xs| && xs[i] == Filter(xs, p)[0] && p(xs[i])
    ensures forall j :: 0 <= j < i ==> !p(xs[j])
    decreases |xs|
  {
    if p(xs[0]) {
      i := 0;
    } else {
      var k := FilterHead(xs[1..], p);
      i := k + 1;
      forall j | 0 <= j < i ensures !p(xs[j]) {
        if j > 0 {
          assert xs[j] == xs[1..][j - 1];
        }
      }
    }
  }
}
