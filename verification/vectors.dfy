/**
 * `cosineSimilarity`, which classification and the older similarity package
 * both define identically. The three running sums are modelled exactly; the
 * final float32 square roots and division are a `measure` oracle applied to
 * (dot, |a|^2, |b|^2).
 */
module Vectors {

  /** The sum of a[i] * b[i] over the common prefix, accumulated left to right. */
  function Dot(a: seq<real>, b: seq<real>): real
    requires |a| == |b|
    decreases |a|
  {
    if |a| == 0 then 0.0 else Dot(a[..|a| - 1], b[..|b| - 1]) + a[|a| - 1] * b[|b| - 1]
  }

  /** The dot product does not depend on the order of its arguments. */
  lemma {:induction false} DotSymmetric(a: seq<real>, b: seq<real>)
    requires |a| == |b|
    ensures Dot(a, b) == Dot(b, a)
    decreases |a|
  {
    if |a| > 0 {
      DotSymmetric(a[..|a| - 1], b[..|b| - 1]);
    }
  }

  /** A squared norm is never negative. */
  lemma {:induction false} SquaredNormNonNegative(a: seq<real>)
    ensures Dot(a, a) >= 0.0
    decreases |a|
  {
    if |a| > 0 {
      SquaredNormNonNegative(a[..|a| - 1]);
      assert a[|a| - 1] * a[|a| - 1] >= 0.0;
    }
  }

  /**
   * `cosineSimilarity`: exactly -1 when the lengths differ; otherwise the
   * measure of the dot product and the two squared norms.
   */
  function CosineSimilarity(a: seq<real>, b: seq<real>, measure: (real, real, real) -> real): (sim: real)
    ensures |a| != |b| ==> sim == -1.0
    ensures |a| == |b| ==> Dot(a, a) >= 0.0 && Dot(b, b) >= 0.0 && sim == measure(Dot(a, b), Dot(a, a), Dot(b, b))
  {
    if |a| != |b| then -1.0
    else
      SquaredNormNonNegative(a);
      SquaredNormNonNegative(b);
      measure(Dot(a, b), Dot(a, a), Dot(b, b))
  }

  /** With a measure symmetric in the two norms, the similarity is symmetric in its vectors. */
  lemma CosineSymmetric(a: seq<real>, b: seq<real>, measure: (real, real, real) -> real)
    requires forall d, x, y :: measure(d, x, y) == measure(d, y, x)
    ensures CosineSimilarity(a, b, measure) == CosineSimilarity(b, a, measure)
  {
    if |a| == |b| {
      DotSymmetric(a, b);
      assert measure(Dot(a, b), Dot(a, a), Dot(b, b)) == measure(Dot(a, b), Dot(b, b), Dot(a, a));
    }
  }
}
