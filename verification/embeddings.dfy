/**
 * Request shaping for embeddings: the sliding-window splitter over runes and
 * the (weighted) element-wise averaging of chunk embeddings. Components are
 * `real`; float32 rounding is not modelled.
 */
module Embeddings {
  import opened Wrappers
  import opened GoStrings

  type Vector = seq<real>

  // ---------------------------------------------------------------------
  // chunkText
  // ---------------------------------------------------------------------

  /**
   * `chunks` splits `runes` into windows of `chunkSize` runes starting every
   * `chunkSize - overlap` runes: window k is exactly
   * runes[k*step .. min(k*step + chunkSize, n)], every window starts inside the
   * text, and there are just enough windows for the last start to pass n.
   */
  ghost predicate IsChunking(runes: string, chunkSize: int, overlap: int, chunks: seq<string>) {
    var n := |runes|;
    var step := chunkSize - overlap;
    && (n == 0 ==> chunks == [])
    && (n > 0 ==> 0 <= chunkSize && 0 < step && |chunks| > 0 && (|chunks| - 1) * step < n <= |chunks| * step)
    && forall k :: 0 <= k < |chunks| ==>
         && 0 <= k * step < n && 0 <= chunkSize
         && chunks[k] == runes[k * step .. Min(k * step + chunkSize, n)]
  }

  /** `chunkText`: it terminates only when the window advances, i.e. chunkSize > overlap. */
  method ChunkText(text: string, chunkSize: int, overlap: int) returns (chunks: seq<string>)
    requires |text| == 0 || (0 <= chunkSize && overlap < chunkSize)
    ensures IsChunking(text, chunkSize, overlap, chunks)
  {
    chunks := [];
    var n := |text|;
    var step := chunkSize - overlap;
    var start := 0;
    while start < n
      invariant start == |chunks| * step
      invariant n > 0 ==> 0 <= start && (|chunks| == 0 || (|chunks| - 1) * step < n)
      invariant forall k :: 0 <= k < |chunks| ==>
        && 0 <= k * step < n && 0 <= chunkSize
        && chunks[k] == text[k * step .. Min(k * step + chunkSize, n)]
      decreases n - start
    {
      var end := start + chunkSize;
      if end > n {
        end := n;
      }
      chunks := chunks + [text[start..end]];
      start := start + step;
      assert start == |chunks| * step;
    }
  }

  /** The windows of `chunkText`, one per start position below the text length. */
  function Chunks(runes: string, chunkSize: int, overlap: int): (chunks: seq<string>)
    requires |runes| == 0 || (0 <= chunkSize && overlap < chunkSize)
    ensures IsChunking(runes, chunkSize, overlap, chunks)
  {
    var n := |runes|;
    if n == 0 then []
    else
      var step := chunkSize - overlap;
      var q := (n + step - 1) / step;
      WindowCount(n, step);
      Windows(runes, chunkSize, overlap, q)
  }

  /** The first `q` windows, when the last of them starts inside the text. */
  function Windows(runes: string, chunkSize: int, overlap: int, q: nat): (cs: seq<string>)
    requires 0 <= chunkSize && overlap < chunkSize
    requires (q - 1) * (chunkSize - overlap) < |runes|
    ensures |cs| == q
    ensures forall k :: 0 <= k < q ==>
              && 0 <= k * (chunkSize - overlap) < |runes|
              && cs[k] == runes[k * (chunkSize - overlap) .. Min(k * (chunkSize - overlap) + chunkSize, |runes|)]
  {
    seq(q, k requires 0 <= k < q => WindowAt(runes, chunkSize, overlap, k, q))
  }

  function WindowAt(runes: string, chunkSize: int, overlap: int, k: int, q: int): (w: string)
    requires 0 <= chunkSize && overlap < chunkSize && 0 <= k < q
    requires (q - 1) * (chunkSize - overlap) < |runes|
    ensures 0 <= k * (chunkSize - overlap) < |runes|
    ensures w == runes[k * (chunkSize - overlap) .. Min(k * (chunkSize - overlap) + chunkSize, |runes|)]
  {
    var step := chunkSize - overlap;
    MulMono(k, q - 1, step);
    runes[k * step .. Min(k * step + chunkSize, |runes|)]
  }

  lemma MulMono(a: int, b: int, s: int)
    requires 0 <= a <= b && s > 0
    ensures 0 <= a * s <= b * s
  {
  }

  /** ceil(n / step) windows: the last one starts inside the text, the next would not. */
  lemma WindowCount(n: int, step: int)
    requires n > 0 && step > 0
    ensures var q := (n + step - 1) / step; q > 0 && (q - 1) * step < n <= q * step
  {
    var m := n + step - 1;
    var q := m / step;
    var r := m % step;
    assert m == q * step + r && 0 <= r < step;
    assert (q - 1) * step == q * step - step;
  }

  lemma MulStrictMono(a: int, b: int, s: int)
    requires s > 0 && a * s < b * s
    ensures a < b
  {
  }

  /** The number of windows is determined by the text length and the stride. */
  lemma WindowCountUnique(n: int, step: int, a: int, b: int)
    requires step > 0
    requires (a - 1) * step < n <= a * step
    requires (b - 1) * step < n <= b * step
    ensures a == b
  {
    MulStrictMono(a - 1, b, step);
    MulStrictMono(b - 1, a, step);
  }

  /** Every chunk is at most `chunkSize` runes long, and non-empty when the window is. */
  lemma ChunkBounds(runes: string, chunkSize: int, overlap: int, chunks: seq<string>, k: nat)
    requires IsChunking(runes, chunkSize, overlap, chunks)
    requires k < |chunks|
    ensures |chunks[k]| <= chunkSize
    ensures chunkSize > 0 ==> |chunks[k]| > 0
  {
    var start := k * (chunkSize - overlap);
    assert chunks[k] == runes[start .. Min(start + chunkSize, |runes|)];
  }

  /** Rune `i` lies in window `k`. */
  predicate InWindow(n: int, chunkSize: int, overlap: int, k: int, i: int) {
    k * (chunkSize - overlap) <= i < Min(k * (chunkSize - overlap) + chunkSize, n)
  }

  /** Every rune lies in some chunk when windows overlap or touch. */
  lemma ChunksCoverEveryRune(runes: string, chunkSize: int, overlap: int, chunks: seq<string>, i: int)
    requires IsChunking(runes, chunkSize, overlap, chunks)
    requires 0 <= overlap && 0 <= i < |runes|
    ensures exists k :: 0 <= k < |chunks| && InWindow(|runes|, chunkSize, overlap, k, i)
  {
    var step := chunkSize - overlap;
    var k := i / step;
    FloorDiv(i, step);
    MulStrictMono(k, |chunks|, step);
    assert InWindow(|runes|, chunkSize, overlap, k, i);
  }

  lemma FloorDiv(i: int, step: int)
    requires 0 <= i && step > 0
    ensures 0 <= i / step && (i / step) * step <= i < (i / step) * step + step
  {
    assert i == (i / step) * step + i % step;
  }

  /**
   * Empty text has no chunks; otherwise the first chunk starts at rune 0 and
   * the last one ends at the end of the text (when windows overlap or touch).
   */
  lemma ChunkEnds(runes: string, chunkSize: int, overlap: int, chunks: seq<string>)
    requires IsChunking(runes, chunkSize, overlap, chunks)
    requires 0 <= overlap
    ensures |runes| == 0 <==> |chunks| == 0
    ensures |runes| > 0 ==> chunks[0] == runes[..Min(chunkSize, |runes|)]
    ensures |runes| > 0 ==> chunks[|chunks| - 1] == runes[(|chunks| - 1) * (chunkSize - overlap)..]
  {
    var n := |runes|;
    var step := chunkSize - overlap;
    if n > 0 {
      var last := |chunks| - 1;
      assert last * step + step == |chunks| * step;
      assert chunks[0] == runes[0 * step .. Min(0 * step + chunkSize, n)];
      assert chunks[last] == runes[last * step .. Min(last * step + chunkSize, n)];
    }
  }

  /** The chunking of a text is unique: any two chunkings agree. */
  lemma ChunkingUnique(runes: string, chunkSize: int, overlap: int, c1: seq<string>, c2: seq<string>)
    requires IsChunking(runes, chunkSize, overlap, c1)
    requires IsChunking(runes, chunkSize, overlap, c2)
    ensures c1 == c2
  {
    if |runes| > 0 {
      WindowCountUnique(|runes|, chunkSize - overlap, |c1|, |c2|);
    }
  }

  /** A non-empty text no longer than one stride is a single chunk: the text itself. */
  lemma ShortTextSingleChunk(runes: string, chunkSize: int, overlap: int)
    requires 0 <= overlap && 0 < |runes| <= chunkSize - overlap
    ensures Chunks(runes, chunkSize, overlap) == [runes]
  {
    var chunks := Chunks(runes, chunkSize, overlap);
    var step := chunkSize - overlap;
    MulStrictMono(|chunks| - 1, 1, step);
    assert |chunks| == 1;
    assert chunks[0] == runes[0 * step .. Min(0 * step + chunkSize, |runes|)];
    assert runes[0..|runes|] == runes;
  }

  // ---------------------------------------------------------------------
  // averageEmbeddings
  // ---------------------------------------------------------------------

  /** All vectors have the dimension of the first. */
  predicate SameDim(embs: seq<Vector>) {
    forall k :: 0 <= k < |embs| ==> |embs[k]| == |embs[0]|
  }

  /** The sum of component `j` over all vectors. */
  function ColumnSum(embs: seq<Vector>, j: nat): real
    requires forall k :: 0 <= k < |embs| ==> j < |embs[k]|
  {
    if |embs| == 0 then 0.0 else ColumnSum(embs[..|embs| - 1], j) + embs[|embs| - 1][j]
  }

  /** The component-wise arithmetic mean. */
  function Mean(embs: seq<Vector>): (r: Vector)
    requires |embs| > 0 && SameDim(embs)
    ensures |r| == |embs[0]|
  {
    seq(|embs[0]|, j requires 0 <= j < |embs[0]| => ColumnSum(embs, j) / (|embs| as real))
  }

  /**
   * `averageEmbeddings`: an error for no vectors or for a vector whose length
   * differs from the first; otherwise the component-wise mean, which has the
   * first vector's dimension.
   */
  method AverageEmbeddings(embs: seq<Vector>) returns (r: Result<Vector>)
    ensures |embs| == 0 ==> r == Err("no embeddings provided")
    ensures |embs| > 0 && !SameDim(embs) ==> r == Err("embeddings have inconsistent dimensions")
    ensures |embs| > 0 && SameDim(embs) ==> r == Ok(Mean(embs))
  {
    if |embs| == 0 {
      return Err("no embeddings provided");
    }
    var dim := |embs[0]|;
    var avg: Vector := seq(dim, _ => 0.0);
    var count := |embs| as real;
    var k := 0;
    while k < |embs|
      invariant 0 <= k <= |embs|
      invariant |avg| == dim
      invariant forall m :: 0 <= m < k ==> |embs[m]| == dim
      invariant forall j :: 0 <= j < dim ==> avg[j] == ColumnSum(embs[..k], j)
    {
      var emb := embs[k];
      if |emb| != dim {
        return Err("embeddings have inconsistent dimensions");
      }
      assert embs[..k + 1][..k] == embs[..k];
      var i := 0;
      while i < |emb|
        invariant 0 <= i <= dim
        invariant |avg| == dim
        invariant forall j :: 0 <= j < i ==> avg[j] == ColumnSum(embs[..k + 1], j)
        invariant forall j :: i <= j < dim ==> avg[j] == ColumnSum(embs[..k], j)
      {
        avg := avg[i := avg[i] + emb[i]];
        i := i + 1;
      }
      k := k + 1;
    }
    assert embs[..|embs|] == embs;
    var i := 0;
    while i < dim
      invariant 0 <= i <= dim
      invariant |avg| == dim
      invariant forall j :: 0 <= j < i ==> avg[j] == ColumnSum(embs, j) / count
      invariant forall j :: i <= j < dim ==> avg[j] == ColumnSum(embs, j)
    {
      avg := avg[i := avg[i] / count];
      i := i + 1;
    }
    assert avg == Mean(embs);
    return Ok(avg);
  }

  /** Averaging a single vector gives that vector back. */
  lemma MeanOfOne(v: Vector)
    ensures Mean([v]) == v
  {
    forall j | 0 <= j < |v| ensures Mean([v])[j] == v[j] {
      assert [v][..0] == [];
      assert ColumnSum([v], j) == ColumnSum([], j) + v[j];
    }
  }

  // ---------------------------------------------------------------------
  // weightedAverageEmbeddings
  // ---------------------------------------------------------------------

  function TotalWeight(ws: seq<real>): real {
    if |ws| == 0 then 0.0 else TotalWeight(ws[..|ws| - 1]) + ws[|ws| - 1]
  }

  /** The sum of weight times component `j` over all vectors. */
  function WeightedColumnSum(embs: seq<Vector>, ws: seq<real>, j: nat): real
    requires |ws| == |embs|
    requires forall k :: 0 <= k < |embs| ==> j < |embs[k]|
  {
    if |embs| == 0 then 0.0
    else WeightedColumnSum(embs[..|embs| - 1], ws[..|ws| - 1], j) + embs[|embs| - 1][j] * ws[|ws| - 1]
  }

  /** The component-wise weighted mean: sum of w_i * e_i divided by the sum of w_i. */
  function WeightedMean(embs: seq<Vector>, ws: seq<real>): (r: Vector)
    requires |embs| > 0 && |ws| == |embs| && SameDim(embs) && TotalWeight(ws) != 0.0
    ensures |r| == |embs[0]|
  {
    seq(|embs[0]|, j requires 0 <= j < |embs[0]| => WeightedColumnSum(embs, ws, j) / TotalWeight(ws))
  }

  /**
   * `weightedAverageEmbeddings`. Its errors, in the order they are checked:
   * no vectors, a weight count that differs from the vector count, a vector
   * whose length differs from the first, a zero total weight. Otherwise the
   * weighted mean.
   */
  method WeightedAverageEmbeddings(embs: seq<Vector>, weights: seq<real>) returns (r: Result<Vector>)
    ensures |embs| == 0 ==> r == Err("no embeddings provided")
    ensures |embs| > 0 && |weights| != |embs| ==> r == Err("number of weights must match number of embeddings")
    ensures |embs| > 0 && |weights| == |embs| && !SameDim(embs) ==> r == Err("embeddings have inconsistent dimensions")
    ensures |embs| > 0 && |weights| == |embs| && SameDim(embs) && TotalWeight(weights) == 0.0 ==> r == Err("total weight is zero")
    ensures |embs| > 0 && |weights| == |embs| && SameDim(embs) && TotalWeight(weights) != 0.0 ==> r == Ok(WeightedMean(embs, weights))
  {
    if |embs| == 0 {
      return Err("no embeddings provided");
    }
    if |embs| != |weights| {
      return Err("number of weights must match number of embeddings");
    }
    var dim := |embs[0]|;
    var acc: Vector := seq(dim, _ => 0.0);
    var totalWeight := 0.0;
    var k := 0;
    while k < |embs|
      invariant 0 <= k <= |embs|
      invariant |acc| == dim
      invariant forall m :: 0 <= m < k ==> |embs[m]| == dim
      invariant totalWeight == TotalWeight(weights[..k])
      invariant forall j :: 0 <= j < dim ==> acc[j] == WeightedColumnSum(embs[..k], weights[..k], j)
    {
      var emb := embs[k];
      if |emb| != dim {
        return Err("embeddings have inconsistent dimensions");
      }
      assert embs[..k + 1][..k] == embs[..k];
      assert weights[..k + 1][..k] == weights[..k];
      totalWeight := totalWeight + weights[k];
      var i := 0;
      while i < |emb|
        invariant 0 <= i <= dim
        invariant |acc| == dim
        invariant forall j :: 0 <= j < i ==> acc[j] == WeightedColumnSum(embs[..k + 1], weights[..k + 1], j)
        invariant forall j :: i <= j < dim ==> acc[j] == WeightedColumnSum(embs[..k], weights[..k], j)
      {
        acc := acc[i := acc[i] + emb[i] * weights[k]];
        i := i + 1;
      }
      k := k + 1;
    }
    assert embs[..|embs|] == embs;
    assert weights[..|weights|] == weights;
    if totalWeight == 0.0 {
      return Err("total weight is zero");
    }
    var i := 0;
    while i < dim
      invariant 0 <= i <= dim
      invariant |acc| == dim
      invariant forall j :: 0 <= j < i ==> acc[j] == WeightedColumnSum(embs, weights, j) / totalWeight
      invariant forall j :: i <= j < dim ==> acc[j] == WeightedColumnSum(embs, weights, j)
    {
      acc := acc[i := acc[i] / totalWeight];
      i := i + 1;
    }
    assert acc == WeightedMean(embs, weights);
    return Ok(acc);
  }

  lemma {:induction false} UniformTotal(ws: seq<real>, c: real)
    requires forall k :: 0 <= k < |ws| ==> ws[k] == c
    ensures TotalWeight(ws) == c * (|ws| as real)
    decreases |ws|
  {
    if |ws| > 0 {
      UniformTotal(ws[..|ws| - 1], c);
    }
  }

  lemma {:induction false} UniformColumn(embs: seq<Vector>, ws: seq<real>, c: real, j: nat)
    requires |ws| == |embs|
    requires forall k :: 0 <= k < |embs| ==> j < |embs[k]|
    requires forall k :: 0 <= k < |ws| ==> ws[k] == c
    ensures WeightedColumnSum(embs, ws, j) == c * ColumnSum(embs, j)
    decreases |embs|
  {
    if |embs| > 0 {
      var n := |embs|;
      UniformColumn(embs[..n - 1], ws[..n - 1], c, j);
    }
  }

  /** One component: with equal weights c, the weighted column average is the plain one. */
  lemma UniformColumnMean(embs: seq<Vector>, ws: seq<real>, c: real, j: nat)
    requires |embs| > 0 && |ws| == |embs|
    requires forall k :: 0 <= k < |embs| ==> j < |embs[k]|
    requires c != 0.0 && forall k :: 0 <= k < |ws| ==> ws[k] == c
    ensures TotalWeight(ws) != 0.0
    ensures WeightedColumnSum(embs, ws, j) / TotalWeight(ws) == ColumnSum(embs, j) / (|embs| as real)
  {
    var n := |embs| as real;
    var s := ColumnSum(embs, j);
    UniformTotal(ws, c);
    UniformColumn(embs, ws, c, j);
    ScaleCancels(c, s, n);
    DivideEqual(WeightedColumnSum(embs, ws, j), TotalWeight(ws), c * s, c * n);
  }

  lemma DivideEqual(a: real, t: real, x: real, y: real)
    requires a == x && t == y && t != 0.0
    ensures a / t == x / y
  {
  }

  /** Equal non-zero weights reduce the weighted average to the plain mean. */
  lemma UniformWeightsGiveMean(embs: seq<Vector>, ws: seq<real>, c: real)
    requires |embs| > 0 && |ws| == |embs| && SameDim(embs)
    requires c != 0.0 && forall k :: 0 <= k < |ws| ==> ws[k] == c
    ensures TotalWeight(ws) != 0.0
    ensures WeightedMean(embs, ws) == Mean(embs)
  {
    UniformTotal(ws, c);
    var wm := WeightedMean(embs, ws);
    var m := Mean(embs);
    forall j | 0 <= j < |embs[0]| ensures wm[j] == m[j] {
      UniformColumnMean(embs, ws, c, j);
    }
  }

  lemma ScaleCancels(c: real, s: real, n: real)
    requires c != 0.0 && n != 0.0
    ensures c * n != 0.0 && (c * s) / (c * n) == s / n
  {
  }
}
