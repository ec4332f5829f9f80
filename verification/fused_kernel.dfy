/** The per-row kernel `fused_cross_entropy_fwd_bwd_kernel`: one token row of
    logits in, that row's loss and logit gradient out.

    The row is loaded into a block of `|row| + padding` lanes (BLOCK_SIZE in
    the source), the lanes past the true class count holding `-inf`. The
    kernel subtracts the block maximum, takes `log(sum(exp))`, subtracts the
    target lane's shifted logit (found by a masked sum over all lanes) and
    divides by the global divisor; the stored gradient is `softmax - onehot`,
    divided likewise, over the true classes only. A row whose target is the
    ignore index yields loss 0 and an all-zero gradient. */
module FusedKernel {
  import opened Numerics

  /** A per-token loss as float32 holds it: the kernel can produce `+inf`
      (target in a padding lane) and NaN (no classes at all, a row `forward`
      rejects before any kernel runs). */
  datatype Loss = Finite(v: real) | PosInf | NaN

  function AddLoss(a: Loss, b: Loss): Loss
  {
    match (a, b)
    case (NaN, _) => NaN
    case (_, NaN) => NaN
    case (Finite(x), Finite(y)) => Finite(x + y)
    case _ => PosInf
  }

  function DivLoss(a: Loss, d: real): Loss
    requires d > 0.0
  {
    match a
    case Finite(x) => Finite(x / d)
    case _ => a
  }

  /** `loss.sum()` over the per-token buffer. */
  function SumLosses(s: seq<Loss>): Loss
  {
    if |s| == 0 then Finite(0.0) else AddLoss(s[0], SumLosses(s[1..]))
  }

  lemma {:induction false} SumLossesConcat(a: seq<Loss>, b: seq<Loss>)
    ensures SumLosses(a + b) == AddLoss(SumLosses(a), SumLosses(b))
  {
    if |a| == 0 {
      assert a + b == b;
    } else {
      assert (a + b)[1..] == a[1..] + b;
      SumLossesConcat(a[1..], b);
    }
  }

  /** One kernel row's two stores: the loss slot and the gradient row. */
  datatype RowOut = RowOut(loss: Loss, grad: seq<real>)

  /** `tl.load(..., mask=col_offsets < n_cols, other=-inf)`. */
  function Load(row: seq<real>, padding: nat): (block: seq<ExtReal>)
    ensures |block| == |row| + padding
    ensures forall j :: 0 <= j < |row| ==> block[j] == Fin(row[j])
    ensures forall j :: |row| <= j < |block| ==> block[j] == NegInf
  {
    seq(|row| + padding, j requires 0 <= j < |row| + padding =>
      if j < |row| then Fin(row[j]) else NegInf)
  }

  function Shift(x: ExtReal, m: real): ExtReal
  {
    match x
    case NegInf => NegInf
    case Fin(a) => Fin(a - m)
  }

  /** `exp(-inf) = 0`. */
  function ExpOf(tr: Transcendentals, x: ExtReal): real
  {
    match x
    case NegInf => 0.0
    case Fin(a) => tr.exp(a)
  }

  function OneHot(target: int, c: int): real
  {
    if target == c then 1.0 else 0.0
  }

  /** `tl.sum(tl.where(targ == col_offsets, logit_row, 0.0))`. */
  function TargetLogit(shifted: seq<ExtReal>, target: int): ExtReal
  {
    SumExt(seq(|shifted|, j requires 0 <= j < |shifted| =>
      if target == j then shifted[j] else Fin(0.0)))
  }

  /** The masked sum picks the target lane, or 0 when no lane matches. */
  lemma TargetLogitSelects(shifted: seq<ExtReal>, target: int)
    ensures 0 <= target < |shifted| ==> TargetLogit(shifted, target) == shifted[target]
    ensures !(0 <= target < |shifted|) ==> TargetLogit(shifted, target) == Fin(0.0)
  {
    var w := seq(|shifted|, j requires 0 <= j < |shifted| =>
      if target == j then shifted[j] else Fin(0.0));
    if 0 <= target < |shifted| {
      SumExtSingle(w, target);
    } else {
      SumExtZeros(w);
    }
  }

  /** `log_sum_exp - target_logit`, `+inf` when the target lane holds `-inf`. */
  function LseMinus(lse: real, t: ExtReal): Loss
  {
    match t
    case NegInf => PosInf
    case Fin(x) => Finite(lse - x)
  }

  function Shifted(block: seq<ExtReal>, m: real): (s: seq<ExtReal>)
    ensures |s| == |block|
    ensures forall j :: 0 <= j < |block| ==> s[j] == Shift(block[j], m)
  {
    seq(|block|, j requires 0 <= j < |block| => Shift(block[j], m))
  }

  function Exps(tr: Transcendentals, xs: seq<ExtReal>): (e: seq<real>)
    ensures |e| == |xs|
    ensures forall j :: 0 <= j < |xs| ==> e[j] == ExpOf(tr, xs[j]) && e[j] >= 0.0
  {
    seq(|xs|, j requires 0 <= j < |xs| => ExpOf(tr, xs[j]))
  }

  /** `softmax - onehot`, divided, over the first `n` lanes (the stored columns). */
  function GradRow(e: seq<real>, n: nat, s: real, target: int, divisor: real): (g: seq<real>)
    requires n <= |e| && s != 0.0 && divisor > 0.0
    ensures |g| == n
    ensures forall c :: 0 <= c < n ==> g[c] == (e[c] / s - OneHot(target, c)) / divisor
  {
    seq(n, c requires 0 <= c < n => (e[c] / s - OneHot(target, c)) / divisor)
  }

  /** The max lane shifts to `exp(0)`, so the sum of exponentials is positive. */
  lemma ExpSumPositive(tr: Transcendentals, block: seq<ExtReal>, m: real)
    requires MaxExt(block) == Fin(m)
    ensures Sum(Exps(tr, Shifted(block, m))) > 0.0
  {
    var k :| 0 <= k < |block| && block[k] == Fin(m);
    SumPositive(Exps(tr, Shifted(block, m)), k);
  }

  /** The kernel on one row, as the source computes it over the padded block. */
  function KernelRow(tr: Transcendentals, row: seq<real>, target: int, ignoreIndex: int,
                     divisor: real, padding: nat): (r: RowOut)
    requires target != ignoreIndex ==> divisor > 0.0
    ensures |r.grad| == |row|
    ensures target == ignoreIndex ==>
      r.loss == Finite(0.0) && forall c :: 0 <= c < |row| ==> r.grad[c] == 0.0
  {
    if target == ignoreIndex then RowOut(Finite(0.0), Zeros(|row|))
    else
      var block := Load(row, padding);
      match MaxExt(block)
      case NegInf => RowOut(NaN, Zeros(|row|))
      case Fin(m) =>
        var shifted := Shifted(block, m);
        var exps := Exps(tr, shifted);
        ExpSumPositive(tr, block, m);
        var sumExp := Sum(exps);
        RowOut(DivLoss(LseMinus(tr.log(sumExp), TargetLogit(shifted, target)), divisor),
               GradRow(exps, |row|, sumExp, target, divisor))
  }

  /** `exp(row[j] - m)` over the true classes. */
  function RowExps(tr: Transcendentals, row: seq<real>, m: real): (e: seq<real>)
    ensures |e| == |row|
    ensures forall j :: 0 <= j < |row| ==> e[j] == tr.exp(row[j] - m)
  {
    seq(|row|, j requires 0 <= j < |row| => tr.exp(row[j] - m))
  }

  lemma RowExpSumPositive(tr: Transcendentals, row: seq<real>, m: real)
    requires |row| > 0
    ensures Sum(RowExps(tr, row, m)) > 0.0
  {
    SumPositive(RowExps(tr, row, m), 0);
  }

  /** The undivided loss of a kept row with `m = max(row)` and `lse = log(sum(exp(row - m)))`. */
  function UndividedLoss(lse: real, row: seq<real>, m: real, target: int, padding: nat): Loss
  {
    if 0 <= target < |row| then Finite(lse - (row[target] - m))
    else if |row| <= target < |row| + padding then PosInf
    else Finite(lse)
  }

  /** The textbook row cross-entropy over the true classes only: the
      reference the padded kernel is checked against. A target in
      `[|row|, |row| + padding)` is a padding lane, whose `-inf` logit makes
      the loss `+inf`; a target outside every lane leaves the loss at
      `log(sum(exp))`; with no classes the max is `-inf` and the loss NaN
      (kept so the function is total: `forward` never launches such a row). */
  function CrossEntropyRow(tr: Transcendentals, row: seq<real>, target: int, ignoreIndex: int,
                           divisor: real, padding: nat): (r: RowOut)
    requires target != ignoreIndex ==> divisor > 0.0
  {
    if target == ignoreIndex then RowOut(Finite(0.0), Zeros(|row|))
    else if |row| == 0 then RowOut(NaN, [])
    else KeptRowOut(tr, row, Max(row), target, divisor, padding)
  }

  /** A kept row with at least one class, shifted by `m`. */
  function KeptRowOut(tr: Transcendentals, row: seq<real>, m: real, target: int, divisor: real,
                      padding: nat): RowOut
    requires |row| > 0 && divisor > 0.0
  {
    var e := RowExps(tr, row, m);
    RowExpSumPositive(tr, row, m);
    var s := Sum(e);
    RowOut(DivLoss(UndividedLoss(tr.log(s), row, m, target, padding), divisor),
           GradRow(e, |row|, s, target, divisor))
  }

  /** The padded block's maximum is the row maximum: padding never wins. */
  lemma MaxOfPaddedRow(row: seq<real>, padding: nat)
    requires |row| > 0
    ensures MaxExt(Load(row, padding)) == Fin(Max(row))
  {
    var block := Load(row, padding);
    var mx := MaxExt(block);
    assert block[0] == Fin(row[0]);
    var i :| 0 <= i < |row| && row[i] == Max(row);
    assert block[i] == Fin(row[i]);
    var k :| 0 <= k < |block| && block[k] == mx;
    assert k < |row|;
  }

  /** Padding lanes contribute `exp(-inf) = 0` to the sum of exponentials,
      and the true lanes hold the row's own exponentials. */
  lemma PaddedExps(tr: Transcendentals, row: seq<real>, padding: nat, m: real)
    ensures Exps(tr, Shifted(Load(row, padding), m))[..|row|] == RowExps(tr, row, m)
    ensures Sum(Exps(tr, Shifted(Load(row, padding), m))) == Sum(RowExps(tr, row, m))
  {
    var all := Exps(tr, Shifted(Load(row, padding), m));
    var kept := RowExps(tr, row, m);
    assert all[..|row|] == kept;
    assert all == kept + all[|row|..];
    SumConcat(kept, all[|row|..]);
    SumZeros(all[|row|..]);
  }

  /** The gradient row reads only the first `n` lanes. */
  lemma GradRowAgrees(e1: seq<real>, e2: seq<real>, n: nat, s: real, target: int, divisor: real)
    requires n <= |e1| && n <= |e2| && s != 0.0 && divisor > 0.0
    requires e1[..n] == e2[..n]
    ensures GradRow(e1, n, s, target, divisor) == GradRow(e2, n, s, target, divisor)
  {
    assert forall c :: 0 <= c < n ==> e1[c] == e1[..n][c] == e2[..n][c] == e2[c];
  }

  /** On the padded block, `lse - target logit` is the reference loss: a
      true-class target reads its own shifted logit, a padding-lane target
      reads `-inf`, any other target reads 0. */
  lemma PaddedTargetLoss(row: seq<real>, padding: nat, m: real, lse: real, target: int)
    ensures LseMinus(lse, TargetLogit(Shifted(Load(row, padding), m), target))
         == UndividedLoss(lse, row, m, target, padding)
  {
    var shifted := Shifted(Load(row, padding), m);
    TargetLogitSelects(shifted, target);
    if 0 <= target < |row| {
      assert shifted[target] == Fin(row[target] - m);
    } else if |row| <= target < |row| + padding {
      assert shifted[target] == NegInf;
    }
  }

  /** The kernel computes the row cross-entropy and its gradient: loading
      `-inf` padding changes neither the max, nor the sum of exponentials,
      nor the stored columns; only a target inside the padding sees it. */
  lemma KernelIsCrossEntropy(tr: Transcendentals, row: seq<real>, target: int, ignoreIndex: int,
                             divisor: real, padding: nat)
    requires target != ignoreIndex ==> divisor > 0.0
    ensures KernelRow(tr, row, target, ignoreIndex, divisor, padding)
         == CrossEntropyRow(tr, row, target, ignoreIndex, divisor, padding)
  {
    if target != ignoreIndex {
      var block := Load(row, padding);
      if |row| == 0 {
        assert MaxExt(block) == NegInf;
      } else {
        var m := Max(row);
        MaxOfPaddedRow(row, padding);
        PaddedExps(tr, row, padding, m);
        var shifted := Shifted(block, m);
        var exps := Exps(tr, shifted);
        var e := RowExps(tr, row, m);
        ExpSumPositive(tr, block, m);
        var s := Sum(e);
        GradRowAgrees(exps, e, |row|, s, target, divisor);
        PaddedTargetLoss(row, padding, m, tr.log(s), target);
      }
    }
  }

  /** `row + k` for a constant `k`. */
  function AddConst(row: seq<real>, k: real): (r: seq<real>)
    ensures |r| == |row|
    ensures forall j :: 0 <= j < |row| ==> r[j] == row[j] + k
  {
    seq(|row|, j requires 0 <= j < |row| => row[j] + k)
  }

  /** Adding a constant to every logit leaves the row's loss and gradient
      unchanged: the max moves by the same constant, so the shifted row is
      identical. */
  lemma KernelShiftInvariant(tr: Transcendentals, row: seq<real>, k: real, target: int,
                             ignoreIndex: int, divisor: real, padding: nat)
    requires target != ignoreIndex ==> divisor > 0.0
    ensures KernelRow(tr, AddConst(row, k), target, ignoreIndex, divisor, padding)
         == KernelRow(tr, row, target, ignoreIndex, divisor, padding)
  {
    KernelIsCrossEntropy(tr, row, target, ignoreIndex, divisor, padding);
    KernelIsCrossEntropy(tr, AddConst(row, k), target, ignoreIndex, divisor, padding);
    CrossEntropyShiftInvariant(tr, row, k, target, ignoreIndex, divisor, padding);
  }

  lemma CrossEntropyShiftInvariant(tr: Transcendentals, row: seq<real>, k: real, target: int,
                                   ignoreIndex: int, divisor: real, padding: nat)
    requires target != ignoreIndex ==> divisor > 0.0
    ensures CrossEntropyRow(tr, AddConst(row, k), target, ignoreIndex, divisor, padding)
         == CrossEntropyRow(tr, row, target, ignoreIndex, divisor, padding)
  {
    ShiftedCrossEntropy(tr, row, AddConst(row, k), k, target, ignoreIndex, divisor, padding);
  }

  /** `row'` is `row` with `k` added to every logit. */
  predicate IsShift(row: seq<real>, row': seq<real>, k: real)
  {
    |row'| == |row| && forall j :: 0 <= j < |row| ==> row'[j] == row[j] + k
  }

  lemma ShiftedCrossEntropy(tr: Transcendentals, row: seq<real>, row': seq<real>, k: real, target: int,
                            ignoreIndex: int, divisor: real, padding: nat)
    requires target != ignoreIndex ==> divisor > 0.0
    requires IsShift(row, row', k)
    ensures CrossEntropyRow(tr, row', target, ignoreIndex, divisor, padding)
         == CrossEntropyRow(tr, row, target, ignoreIndex, divisor, padding)
  {
    if target != ignoreIndex && |row| > 0 {
      var m, m' := Max(row), Max(row');
      MaxShift(row, row', k);
      KeptRowOutShift(tr, row, row', k, m, m', target, divisor, padding);
    }
  }

  /** Shifting the row and its max by the same constant leaves a kept row's output unchanged. */
  lemma KeptRowOutShift(tr: Transcendentals, row: seq<real>, row': seq<real>, k: real, m: real, m': real,
                        target: int, divisor: real, padding: nat)
    requires |row| > 0 && divisor > 0.0 && IsShift(row, row', k) && m' == m + k
    ensures KeptRowOut(tr, row', m', target, divisor, padding)
         == KeptRowOut(tr, row, m, target, divisor, padding)
  {
    RowExpsShift(tr, row, row', k, m, m');
    UndividedLossShift(tr.log(Sum(RowExps(tr, row, m))), row, row', k, m, m', target, padding);
  }

  lemma UndividedLossShift(lse: real, row: seq<real>, row': seq<real>, k: real, m: real, m': real,
                           target: int, padding: nat)
    requires IsShift(row, row', k) && m' == m + k
    ensures UndividedLoss(lse, row', m', target, padding)
         == UndividedLoss(lse, row, m, target, padding)
  {
    if 0 <= target < |row| {
      assert row'[target] - m' == row[target] - m;
    }
  }

  lemma MaxShift(row: seq<real>, row': seq<real>, k: real)
    requires |row| > 0 && IsShift(row, row', k)
    ensures Max(row') == Max(row) + k
  {
    var m := Max(row);
    var m' := Max(row');
    var i :| 0 <= i < |row| && row[i] == m;
    var i' :| 0 <= i' < |row'| && row'[i'] == m';
    assert row'[i] <= m';
    assert row[i'] <= m;
  }

  lemma RowExpsShift(tr: Transcendentals, row: seq<real>, row': seq<real>, k: real, m: real, m': real)
    requires IsShift(row, row', k) && m' == m + k
    ensures RowExps(tr, row', m') == RowExps(tr, row, m)
  {
    assert forall j :: 0 <= j < |row| ==> row'[j] - m' == row[j] - m;
  }

  /** A row whose target is ignored contributes loss 0 and a zero gradient
      whatever its logits are. */
  lemma IgnoredRowIsMasked(tr: Transcendentals, row: seq<real>, other: seq<real>,
                           ignoreIndex: int, divisor: real, padding: nat)
    requires |row| == |other|
    ensures KernelRow(tr, row, ignoreIndex, ignoreIndex, divisor, padding)
         == KernelRow(tr, other, ignoreIndex, ignoreIndex, divisor, padding)
         == RowOut(Finite(0.0), seq(|row|, c => 0.0))
  {
  }

  /** The loss of a kept row is its undivided loss divided by the divisor. */
  lemma KernelDividesLoss(tr: Transcendentals, row: seq<real>, target: int, ignoreIndex: int,
                          divisor: real, padding: nat)
    requires divisor > 0.0
    ensures KernelRow(tr, row, target, ignoreIndex, divisor, padding).loss
         == DivLoss(KernelRow(tr, row, target, ignoreIndex, 1.0, padding).loss, divisor)
  {
    KernelIsCrossEntropy(tr, row, target, ignoreIndex, divisor, padding);
    KernelIsCrossEntropy(tr, row, target, ignoreIndex, 1.0, padding);
  }

  /** For a target among the true classes the gradient row `softmax - onehot`
      sums to zero, and the loss is finite. */
  lemma KernelGradientSumsToZero(tr: Transcendentals, row: seq<real>, target: int,
                                 ignoreIndex: int, divisor: real, padding: nat)
    requires divisor > 0.0 && 0 <= target < |row|
    ensures Sum(KernelRow(tr, row, target, ignoreIndex, divisor, padding).grad) == 0.0
    ensures KernelRow(tr, row, target, ignoreIndex, divisor, padding).loss.Finite?
  {
    KernelIsCrossEntropy(tr, row, target, ignoreIndex, divisor, padding);
    if target == ignoreIndex {
      SumZeros(Zeros(|row|));
    } else {
      var m := Max(row);
      var e := RowExps(tr, row, m);
      RowExpSumPositive(tr, row, m);
      var lse := tr.log(Sum(e));
      var out := RowOut(DivLoss(UndividedLoss(lse, row, m, target, padding), divisor),
                        GradRow(e, |row|, Sum(e), target, divisor));
      assert CrossEntropyRow(tr, row, target, ignoreIndex, divisor, padding) == out;
      GradRowSumsToZero(e, target, divisor);
    }
  }

  lemma DivSelf(s: real)
    requires s != 0.0
    ensures (s - 0.0) / s == 1.0
  {
    assert (s - 0.0) / s * s == s;
  }

  /** `sum(e / sum(e) - onehot) / d = (1 - 1) / d = 0`. */
  lemma GradRowSumsToZero(e: seq<real>, target: int, divisor: real)
    requires 0 <= target < |e| && Sum(e) != 0.0 && divisor > 0.0
    ensures Sum(GradRow(e, |e|, Sum(e), target, divisor)) == 0.0
  {
    var s := Sum(e);
    var p := Softmax(e);
    var h := seq(|e|, j requires 0 <= j < |e| => OneHot(target, j));
    var g := GradRow(e, |e|, s, target, divisor);
    assert forall j :: 0 <= j < |e| ==> g[j] == (p[j] - h[j]) / divisor;
    SumDiffDiv(p, h, divisor, g);
    SoftmaxSumsToOne(e);
    SumOneHot(h, target);
    assert Sum(g) == (1.0 - 1.0) / divisor;
  }

  function Softmax(e: seq<real>): (p: seq<real>)
    requires Sum(e) != 0.0
    ensures |p| == |e| && forall j :: 0 <= j < |e| ==> p[j] == e[j] / Sum(e)
  {
    seq(|e|, j requires 0 <= j < |e| => e[j] / Sum(e))
  }

  lemma SoftmaxSumsToOne(e: seq<real>)
    requires Sum(e) != 0.0
    ensures Sum(Softmax(e)) == 1.0
  {
    var s := Sum(e);
    var p := Softmax(e);
    assert forall j :: 0 <= j < |e| ==> p[j] == (e[j] - Zeros(|e|)[j]) / s;
    SumDiffDiv(e, Zeros(|e|), s, p);
    SumZeros(Zeros(|e|));
    DivSelf(s);
  }

  lemma {:induction false} SumOneHot(h: seq<real>, target: int)
    requires 0 <= target < |h|
    requires forall j :: 0 <= j < |h| ==> h[j] == OneHot(target, j)
    ensures Sum(h) == 1.0
  {
    if target == 0 {
      SumZeros(h[1..]);
    } else {
      SumOneHot(h[1..], target - 1);
    }
  }
}
