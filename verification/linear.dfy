/** The dense products the chunk driver asks torch for, over real matrices
    stored as sequences of rows: logits `x @ W.T`, the feature gradient
    `dLogits @ W` and the weight gradient `dLogits.T @ x`. */
module Linear {
  import opened Numerics

  type Matrix = seq<seq<real>>

  predicate IsMatrix(m: Matrix, rows: nat, cols: nat)
  {
    |m| == rows && forall i :: 0 <= i < |m| ==> |m[i]| == cols
  }

  function Dot(u: seq<real>, v: seq<real>): real
    requires |u| == |v|
  {
    if |u| == 0 then 0.0 else u[0] * v[0] + Dot(u[1..], v[1..])
  }

  lemma {:induction false} DotConcat(a1: seq<real>, a2: seq<real>, b1: seq<real>, b2: seq<real>)
    requires |a1| == |b1| && |a2| == |b2|
    ensures Dot(a1 + a2, b1 + b2) == Dot(a1, b1) + Dot(a2, b2)
  {
    if |a1| == 0 {
      assert a1 + a2 == a2 && b1 + b2 == b2;
    } else {
      assert (a1 + a2)[1..] == a1[1..] + a2;
      assert (b1 + b2)[1..] == b1[1..] + b2;
      DotConcat(a1[1..], a2, b1[1..], b2);
    }
  }

  /** Column `k` of a matrix whose rows all have more than `k` entries. */
  function Column(m: Matrix, k: nat): (col: seq<real>)
    requires forall i :: 0 <= i < |m| ==> k < |m[i]|
    ensures |col| == |m|
    ensures forall i :: 0 <= i < |m| ==> col[i] == m[i][k]
  {
    seq(|m|, i requires 0 <= i < |m| => m[i][k])
  }

  lemma ColumnConcat(a: Matrix, b: Matrix, k: nat)
    requires forall i :: 0 <= i < |a| ==> k < |a[i]|
    requires forall i :: 0 <= i < |b| ==> k < |b[i]|
    ensures Column(a + b, k) == Column(a, k) + Column(b, k)
  {
  }

  /** One token's logits: `x @ W.T`, one entry per class row of `W`. */
  function LogitsRow(x: seq<real>, w: Matrix): (r: seq<real>)
    requires IsMatrix(w, |w|, |x|)
    ensures |r| == |w|
    ensures forall c :: 0 <= c < |w| ==> r[c] == Dot(x, w[c])
  {
    seq(|w|, c requires 0 <= c < |w| => Dot(x, w[c]))
  }

  /** `torch.matmul(x, W.T)`: row `t` holds token `t`'s logits. */
  function Logits(x: Matrix, w: Matrix, hidden: nat): (l: Matrix)
    requires IsMatrix(x, |x|, hidden) && IsMatrix(w, |w|, hidden)
    ensures IsMatrix(l, |x|, |w|)
    ensures forall t :: 0 <= t < |x| ==> l[t] == LogitsRow(x[t], w)
  {
    seq(|x|, t requires 0 <= t < |x| => LogitsRow(x[t], w))
  }

  /** `dLogits @ W`: the feature gradient, one row per token. */
  function FeatureGrad(g: Matrix, w: Matrix, hidden: nat): (r: Matrix)
    requires IsMatrix(g, |g|, |w|) && IsMatrix(w, |w|, hidden)
    ensures IsMatrix(r, |g|, hidden)
    ensures forall t, k :: 0 <= t < |g| && 0 <= k < hidden ==> r[t][k] == Dot(g[t], Column(w, k))
  {
    seq(|g|, t requires 0 <= t < |g| =>
      seq(hidden, k requires 0 <= k < hidden => Dot(g[t], Column(w, k))))
  }

  /** Rows `a..b` of the feature gradient are the feature gradient of rows `a..b`. */
  lemma FeatureGradSlice(g: Matrix, w: Matrix, hidden: nat, a: nat, b: nat)
    requires IsMatrix(g, |g|, |w|) && IsMatrix(w, |w|, hidden)
    requires a <= b <= |g|
    ensures FeatureGrad(g[a..b], w, hidden) == FeatureGrad(g, w, hidden)[a..b]
  {
  }

  /** `dLogits.T @ x`: entry `(c, k)` sums `dLogits[t][c] * x[t][k]` over the tokens. */
  function WeightGrad(g: Matrix, x: Matrix, classes: nat, hidden: nat): (r: Matrix)
    requires |g| == |x| && IsMatrix(g, |g|, classes) && IsMatrix(x, |x|, hidden)
    ensures IsMatrix(r, classes, hidden)
    ensures forall c, k :: 0 <= c < classes && 0 <= k < hidden ==>
      r[c][k] == Dot(Column(g, c), Column(x, k))
  {
    seq(classes, c requires 0 <= c < classes =>
      seq(hidden, k requires 0 <= k < hidden => Dot(Column(g, c), Column(x, k))))
  }

  function ZeroMatrix(rows: nat, cols: nat): (z: Matrix)
    ensures IsMatrix(z, rows, cols)
    ensures forall i, j :: 0 <= i < rows && 0 <= j < cols ==> z[i][j] == 0.0
  {
    seq(rows, i => Zeros(cols))
  }

  /** `torch.addmm(acc, ..., out=acc)` seen as elementwise accumulation. */
  function AddMatrix(a: Matrix, b: Matrix, rows: nat, cols: nat): (r: Matrix)
    requires IsMatrix(a, rows, cols) && IsMatrix(b, rows, cols)
    ensures IsMatrix(r, rows, cols)
    ensures forall i, j :: 0 <= i < rows && 0 <= j < cols ==> r[i][j] == a[i][j] + b[i][j]
  {
    seq(rows, i requires 0 <= i < rows =>
      seq(cols, j requires 0 <= j < cols => a[i][j] + b[i][j]))
  }

  /** The weight gradient over no tokens is the zero matrix the source starts from. */
  lemma WeightGradEmpty(classes: nat, hidden: nat)
    ensures WeightGrad([], [], classes, hidden) == ZeroMatrix(classes, hidden)
  {
    var w := WeightGrad([], [], classes, hidden);
    var z := ZeroMatrix(classes, hidden);
    forall c | 0 <= c < classes
      ensures w[c] == z[c]
    {
      assert forall k :: 0 <= k < hidden ==> w[c][k] == 0.0;
    }
  }

  /** Accumulating the weight gradients of two consecutive token ranges gives
      the weight gradient of their union. */
  lemma WeightGradSplit(g1: Matrix, g2: Matrix, x1: Matrix, x2: Matrix, classes: nat, hidden: nat)
    requires |g1| == |x1| && IsMatrix(g1, |g1|, classes) && IsMatrix(x1, |x1|, hidden)
    requires |g2| == |x2| && IsMatrix(g2, |g2|, classes) && IsMatrix(x2, |x2|, hidden)
    ensures IsMatrix(g1 + g2, |g1 + g2|, classes) && IsMatrix(x1 + x2, |x1 + x2|, hidden)
    ensures WeightGrad(g1 + g2, x1 + x2, classes, hidden)
         == AddMatrix(WeightGrad(g1, x1, classes, hidden), WeightGrad(g2, x2, classes, hidden),
                      classes, hidden)
  {
    var whole := WeightGrad(g1 + g2, x1 + x2, classes, hidden);
    var sum := AddMatrix(WeightGrad(g1, x1, classes, hidden), WeightGrad(g2, x2, classes, hidden),
                         classes, hidden);
    forall c | 0 <= c < classes
      ensures whole[c] == sum[c]
    {
      forall k | 0 <= k < hidden
        ensures whole[c][k] == sum[c][k]
      {
        ColumnConcat(g1, g2, c);
        ColumnConcat(x1, x2, k);
        DotConcat(Column(g1, c), Column(g2, c), Column(x1, k), Column(x2, k));
      }
    }
  }
}
