/** `fused_cel_linear` and `fused_cel_layer`: the next-token shift that lines
    hidden state `h[b][i]` up with label `labels[b][i + 1]` before calling the
    fused loss.

    With `n_loop_iters > 1` no feature row is dropped: every label row loses
    its first entry and gets one `ignore_index` appended, keeping the token
    count `bs * seqlen`. Otherwise the last feature row and the first label of
    every sequence are dropped. The two layouts keep the same pairs apart from
    the appended ignored ones, so they give the same loss. */
module FusedLayer {
  import opened Base
  import opened Numerics
  import opened Linear
  import opened FusedKernel
  import opened FusedForward

  /** Concatenation of the rows: `view(-1, ...)` of a `(bs, seqlen, ...)` tensor. */
  function Flatten<T>(rows: seq<seq<T>>): seq<T>
  {
    if |rows| == 0 then [] else rows[0] + Flatten(rows[1..])
  }

  lemma {:induction false} FlattenLength<T>(rows: seq<seq<T>>, n: nat)
    requires forall b :: 0 <= b < |rows| ==> |rows[b]| == n
    ensures |Flatten(rows)| == |rows| * n
  {
    if |rows| > 0 {
      FlattenLength(rows[1..], n);
    }
  }

  lemma {:induction false} FlattenRowsOf(rows: seq<Matrix>, n: nat, width: nat)
    requires forall b :: 0 <= b < |rows| ==> IsMatrix(rows[b], n, width)
    ensures IsMatrix(Flatten(rows), |rows| * n, width)
  {
    FlattenLength(rows, n);
    if |rows| > 0 {
      FlattenRowsOf(rows[1..], n, width);
    }
  }

  /** Python's `s[1:]`. */
  function DropFirst<T>(s: seq<T>): (r: seq<T>)
    ensures |r| == if |s| == 0 then 0 else |s| - 1
    ensures forall i :: 0 <= i < |r| ==> r[i] == s[i + 1]
  {
    if |s| == 0 then [] else s[1..]
  }

  /** Python's `s[:-1]`. */
  function DropLast<T>(s: seq<T>): (r: seq<T>)
    ensures |r| == if |s| == 0 then 0 else |s| - 1
    ensures forall i :: 0 <= i < |r| ==> r[i] == s[i]
  {
    if |s| == 0 then [] else s[..|s| - 1]
  }

  /** `hidden_states` `(bs, seqlen, hidden)`, one matrix per sequence, and
      `labels` `(bs', seqlen')`. */
  datatype LayerArgs = LayerArgs(
    hidden: seq<Matrix>, seqLen: nat, width: nat, featDType: DType,
    weightShape: seq<nat>, weight: Matrix, weightRequiresGrad: bool,
    labels: seq<seq<int>>, labelLen: nat,
    autocast: Option<DType>)

  predicate LayerWellFormed(a: LayerArgs)
  {
    && (forall b :: 0 <= b < |a.hidden| ==> IsMatrix(a.hidden[b], a.seqLen, a.width))
    && (forall b :: 0 <= b < |a.labels| ==> |a.labels[b]| == a.labelLen)
    && (|a.weightShape| == 2 ==> IsMatrix(a.weight, a.weightShape[0], a.weightShape[1]))
  }

  /** Lines 301-310: every label row shifted left with `ignore_index` appended. */
  function PaddedLabels(labels: seq<seq<int>>, ignoreIndex: int): seq<seq<int>>
  {
    seq(|labels|, b requires 0 <= b < |labels| => DropFirst(labels[b]) + [ignoreIndex])
  }

  /** Line 327: every label row without its first label. */
  function TrimmedLabels(labels: seq<seq<int>>): seq<seq<int>>
  {
    seq(|labels|, b requires 0 <= b < |labels| => DropFirst(labels[b]))
  }

  /** Lines 324-326: every sequence without its last position. */
  function TrimmedHidden(hidden: seq<Matrix>): seq<Matrix>
  {
    seq(|hidden|, b requires 0 <= b < |hidden| => DropLast(hidden[b]))
  }

  /** `fused_cel_linear` (lines 275-286): the autograd function's forward on
      tensors of the given shapes. */
  function FusedCelLinear(tr: Transcendentals, padding: nat, a: LayerArgs,
                          x: seq<Matrix>, xLen: nat, labels: seq<seq<int>>, labelLen: nat,
                          nLoopIters: int := 1, ignoreIndex: int := -100, reduction: string := "mean")
    : (r: Result<ForwardOutput, ForwardError>)
    requires LayerWellFormed(a)
    requires forall b :: 0 <= b < |x| ==> IsMatrix(x[b], xLen, a.width)
    requires forall b :: 0 <= b < |labels| ==> |labels[b]| == labelLen
  {
    LinearInputRepresents(a, x, xLen, labels, labelLen, nLoopIters, ignoreIndex, reduction);
    ForwardReference(LinearInput(a, x, xLen, labels, labelLen, nLoopIters, ignoreIndex, reduction), tr, padding)
  }

  function LinearInput(a: LayerArgs, x: seq<Matrix>, xLen: nat, labels: seq<seq<int>>, labelLen: nat,
                       nLoopIters: int, ignoreIndex: int, reduction: string): ForwardInput
  {
    ForwardInput([|x|, xLen, a.width], Flatten(x), a.featDType,
                 a.weightShape, a.weight, a.weightRequiresGrad,
                 [|labels|, labelLen], Flatten(labels), a.autocast,
                 nLoopIters, ignoreIndex, reduction)
  }

  lemma LinearInputRepresents(a: LayerArgs, x: seq<Matrix>, xLen: nat, labels: seq<seq<int>>, labelLen: nat,
                              nLoopIters: int, ignoreIndex: int, reduction: string)
    requires LayerWellFormed(a)
    requires forall b :: 0 <= b < |x| ==> IsMatrix(x[b], xLen, a.width)
    requires forall b :: 0 <= b < |labels| ==> |labels[b]| == labelLen
    ensures Represents(LinearInput(a, x, xLen, labels, labelLen, nLoopIters, ignoreIndex, reduction))
  {
    FlattenRowsOf(x, xLen, a.width);
    FlattenLength(labels, labelLen);
    assert [|labels|, labelLen][1..] == [labelLen];
    assert [labelLen][1..] == [];
    assert Product([labelLen]) == labelLen;
    assert Product([|labels|, labelLen]) == |labels| * labelLen;
  }

  function Pred(n: nat): nat
  {
    if n == 0 then 0 else n - 1
  }

  /** `fused_cel_layer` (lines 289-339), with the defaults of its signature. */
  function FusedCelLayer(tr: Transcendentals, padding: nat, a: LayerArgs,
                         nLoopIters: int := 1, ignoreIndex: int := -100, reduction: string := "mean")
    : (r: Result<ForwardOutput, ForwardError>)
    requires LayerWellFormed(a)
  {
    if nLoopIters > 1 then
      FusedCelLinear(tr, padding, a, a.hidden, a.seqLen,
                     PaddedLabels(a.labels, ignoreIndex), Pred(a.labelLen) + 1,
                     nLoopIters, ignoreIndex, reduction)
    else
      FusedCelLinear(tr, padding, a, TrimmedHidden(a.hidden), Pred(a.seqLen),
                     TrimmedLabels(a.labels), Pred(a.labelLen),
                     nLoopIters, ignoreIndex, reduction)
  }

  // ---------------------------------------------------------------------
  // Alignment of the two layouts

  type Pair = (seq<real>, int)

  function Zip(xs: Matrix, ls: seq<int>): (ps: seq<Pair>)
    requires |xs| == |ls|
    ensures |ps| == |xs| && forall i :: 0 <= i < |xs| ==> ps[i] == (xs[i], ls[i])
  {
    seq(|xs|, i requires 0 <= i < |xs| => (xs[i], ls[i]))
  }

  /** One sequence's (feature, label) pairs in the padded layout: position `i`
      predicts label `i + 1`, and the last position gets `ignore_index`. */
  function PaddedPairs(h: Matrix, l: seq<int>, ignoreIndex: int): (ps: seq<Pair>)
    requires |h| == |l| > 0
    ensures |ps| == |h|
    ensures forall i :: 0 <= i < |h| - 1 ==> ps[i] == (h[i], l[i + 1])
    ensures ps[|h| - 1] == (h[|h| - 1], ignoreIndex)
  {
    Zip(h, DropFirst(l) + [ignoreIndex])
  }

  /** One sequence's pairs in the trimmed layout: the same alignment, one
      position shorter. */
  function TrimmedPairs(h: Matrix, l: seq<int>): (ps: seq<Pair>)
    requires |h| == |l|
    ensures |ps| == Pred(|h|)
    ensures forall i :: 0 <= i < Pred(|h|) ==> ps[i] == (h[i], l[i + 1])
  {
    Zip(DropLast(h), DropFirst(l))
  }

  /** The pairs whose label is not `ignore_index`, in order. */
  function Kept(ps: seq<Pair>, ignoreIndex: int): (r: seq<Pair>)
    ensures |r| <= |ps|
    ensures forall i :: 0 <= i < |r| ==> r[i].1 != ignoreIndex
    ensures |r| > 0 ==> exists i :: 0 <= i < |ps| && ps[i].1 != ignoreIndex
  {
    if |ps| == 0 then []
    else if ps[0].1 == ignoreIndex then Kept(ps[1..], ignoreIndex)
    else [ps[0]] + Kept(ps[1..], ignoreIndex)
  }

  lemma {:induction false} KeptConcat(a: seq<Pair>, b: seq<Pair>, ignoreIndex: int)
    ensures Kept(a + b, ignoreIndex) == Kept(a, ignoreIndex) + Kept(b, ignoreIndex)
  {
    if |a| > 0 {
      assert (a + b)[1..] == a[1..] + b;
      KeptConcat(a[1..], b, ignoreIndex);
    } else {
      assert a + b == b;
    }
  }

  /** Both layouts keep the same pairs of a sequence: the padded one only adds an ignored pair. */
  lemma PaddingAddsOnlyIgnoredPair(h: Matrix, l: seq<int>, ignoreIndex: int)
    requires |h| == |l| > 0
    ensures Kept(PaddedPairs(h, l, ignoreIndex), ignoreIndex) == Kept(TrimmedPairs(h, l), ignoreIndex)
  {
    var last: Pair := (h[|h| - 1], ignoreIndex);
    assert PaddedPairs(h, l, ignoreIndex) == TrimmedPairs(h, l) + [last];
    KeptConcat(TrimmedPairs(h, l), [last], ignoreIndex);
    assert Kept([last], ignoreIndex) == [];
  }

  lemma {:induction false} ZipFlatten(h: seq<Matrix>, l: seq<seq<int>>)
    requires |h| == |l| && forall b :: 0 <= b < |h| ==> |h[b]| == |l[b]|
    ensures |Flatten(h)| == |Flatten(l)|
    ensures Zip(Flatten(h), Flatten(l))
         == Flatten(seq(|h|, b requires 0 <= b < |h| => Zip(h[b], l[b])))
  {
    var rows := seq(|h|, b requires 0 <= b < |h| => Zip(h[b], l[b]));
    if |h| == 0 {
    } else {
      ZipFlatten(h[1..], l[1..]);
      var tail := seq(|h| - 1, b requires 0 <= b < |h| - 1 => Zip(h[1..][b], l[1..][b]));
      assert rows[1..] == tail;
      assert Zip(Flatten(h), Flatten(l)) == Zip(h[0], l[0]) + Zip(Flatten(h[1..]), Flatten(l[1..]));
    }
  }

  lemma {:induction false} KeptFlatten(rows: seq<seq<Pair>>, ignoreIndex: int)
    ensures Kept(Flatten(rows), ignoreIndex)
         == Flatten(seq(|rows|, b requires 0 <= b < |rows| => Kept(rows[b], ignoreIndex)))
  {
    if |rows| > 0 {
      KeptConcat(rows[0], Flatten(rows[1..]), ignoreIndex);
      KeptFlatten(rows[1..], ignoreIndex);
      assert seq(|rows|, b requires 0 <= b < |rows| => Kept(rows[b], ignoreIndex))[1..]
          == seq(|rows[1..]|, b requires 0 <= b < |rows[1..]| => Kept(rows[1..][b], ignoreIndex));
    }
  }

  /** The kept (feature, label) pairs of the whole batch are the same in both
      layouts, for labels of shape `(bs, seqlen)` and `seqlen >= 1`. */
  lemma LayoutsKeepSamePairs(h: seq<Matrix>, l: seq<seq<int>>, seqLen: nat, ignoreIndex: int)
    requires |h| == |l| && seqLen > 0
    requires forall b :: 0 <= b < |h| ==> |h[b]| == seqLen && |l[b]| == seqLen
    ensures var padded := PaddedLabels(l, ignoreIndex);
      var th := TrimmedHidden(h);
      var tl := TrimmedLabels(l);
      && |Flatten(h)| == |Flatten(padded)| && |Flatten(th)| == |Flatten(tl)|
      && Kept(Zip(Flatten(h), Flatten(padded)), ignoreIndex)
         == Kept(Zip(Flatten(th), Flatten(tl)), ignoreIndex)
  {
    var padded := PaddedLabels(l, ignoreIndex);
    var th := TrimmedHidden(h);
    var tl := TrimmedLabels(l);
    ZipFlatten(h, padded);
    ZipFlatten(th, tl);
    var pRows := seq(|h|, b requires 0 <= b < |h| => Zip(h[b], padded[b]));
    var tRows := seq(|th|, b requires 0 <= b < |th| => Zip(th[b], tl[b]));
    KeptFlatten(pRows, ignoreIndex);
    KeptFlatten(tRows, ignoreIndex);
    var pKept := seq(|pRows|, b requires 0 <= b < |pRows| => Kept(pRows[b], ignoreIndex));
    var tKept := seq(|tRows|, b requires 0 <= b < |tRows| => Kept(tRows[b], ignoreIndex));
    forall b | 0 <= b < |h|
      ensures pKept[b] == tKept[b]
    {
      assert pRows[b] == PaddedPairs(h[b], l[b], ignoreIndex);
      assert tRows[b] == TrimmedPairs(h[b], l[b]);
      PaddingAddsOnlyIgnoredPair(h[b], l[b], ignoreIndex);
    }
    assert pKept == tKept;
  }

  // ---------------------------------------------------------------------
  // Loss over pairs

  function Labels(ps: seq<Pair>): (ls: seq<int>)
    ensures |ls| == |ps| && forall i :: 0 <= i < |ps| ==> ls[i] == ps[i].1
  {
    seq(|ps|, i requires 0 <= i < |ps| => ps[i].1)
  }

  lemma {:induction false} CountKeptIsKeptLength(ps: seq<Pair>, ignoreIndex: int)
    ensures CountKept(Labels(ps), ignoreIndex) == |Kept(ps, ignoreIndex)|
  {
    if |ps| > 0 {
      assert Labels(ps)[1..] == Labels(ps[1..]);
      CountKeptIsKeptLength(ps[1..], ignoreIndex);
    }
  }

  predicate PairsFit(ps: seq<Pair>, w: Matrix, hidden: nat)
  {
    IsMatrix(w, |w|, hidden) && forall i :: 0 <= i < |ps| ==> |ps[i].0| == hidden
  }

  /** One pair's kernel loss. */
  function PairLoss(tr: Transcendentals, w: Matrix, p: Pair, ignoreIndex: int, divisor: real, padding: nat): Loss
    requires IsMatrix(w, |w|, |p.0|)
    requires p.1 != ignoreIndex ==> divisor > 0.0
  {
    KernelRow(tr, LogitsRow(p.0, w), p.1, ignoreIndex, divisor, padding).loss
  }

  /** Each pair's kernel loss. */
  function PairLosses(tr: Transcendentals, w: Matrix, hidden: nat, ps: seq<Pair>, ignoreIndex: int,
                      divisor: real, padding: nat): (l: seq<Loss>)
    requires PairsFit(ps, w, hidden)
    requires forall i :: 0 <= i < |ps| && ps[i].1 != ignoreIndex ==> divisor > 0.0
    ensures |l| == |ps|
  {
    seq(|ps|, i requires 0 <= i < |ps| => PairLoss(tr, w, ps[i], ignoreIndex, divisor, padding))
  }

  lemma KeptFits(ps: seq<Pair>, w: Matrix, hidden: nat, ignoreIndex: int)
    requires PairsFit(ps, w, hidden)
    ensures PairsFit(Kept(ps, ignoreIndex), w, hidden)
    ensures forall p :: p in Kept(ps, ignoreIndex) ==> p in ps
  {
    if |ps| > 0 {
      KeptFits(ps[1..], w, hidden, ignoreIndex);
    }
  }

  lemma PairLossesCons(tr: Transcendentals, w: Matrix, hidden: nat, ps: seq<Pair>,
                        ignoreIndex: int, divisor: real, padding: nat)
    requires PairsFit(ps, w, hidden) && |ps| > 0
    requires forall i :: 0 <= i < |ps| && ps[i].1 != ignoreIndex ==> divisor > 0.0
    ensures PairsFit(ps[1..], w, hidden)
    ensures PairLosses(tr, w, hidden, ps, ignoreIndex, divisor, padding)
         == [PairLoss(tr, w, ps[0], ignoreIndex, divisor, padding)]
            + PairLosses(tr, w, hidden, ps[1..], ignoreIndex, divisor, padding)
  {
    var l := PairLosses(tr, w, hidden, ps, ignoreIndex, divisor, padding);
    var r := [PairLoss(tr, w, ps[0], ignoreIndex, divisor, padding)]
             + PairLosses(tr, w, hidden, ps[1..], ignoreIndex, divisor, padding);
    var tail := PairLosses(tr, w, hidden, ps[1..], ignoreIndex, divisor, padding);
    forall i | 0 <= i < |l|
      ensures l[i] == r[i]
    {
      assert l[i] == PairLoss(tr, w, ps[i], ignoreIndex, divisor, padding);
      if i > 0 {
        assert r[i] == tail[i - 1];
        assert ps[1..][i - 1] == ps[i];
        assert tail[i - 1] == PairLoss(tr, w, ps[1..][i - 1], ignoreIndex, divisor, padding);
      }
    }
  }

  /** Ignored pairs add nothing to the summed loss. */
  lemma {:induction false} SumSkipsIgnored(tr: Transcendentals, w: Matrix, hidden: nat, ps: seq<Pair>,
                                           ignoreIndex: int, divisor: real, padding: nat)
    requires PairsFit(ps, w, hidden)
    requires forall i :: 0 <= i < |ps| && ps[i].1 != ignoreIndex ==> divisor > 0.0
    ensures PairsFit(Kept(ps, ignoreIndex), w, hidden)
    ensures SumLosses(PairLosses(tr, w, hidden, ps, ignoreIndex, divisor, padding))
         == SumLosses(PairLosses(tr, w, hidden, Kept(ps, ignoreIndex), ignoreIndex, divisor, padding))
  {
    KeptFits(ps, w, hidden, ignoreIndex);
    if |ps| > 0 {
      PairLossesCons(tr, w, hidden, ps, ignoreIndex, divisor, padding);
      SumSkipsIgnored(tr, w, hidden, ps[1..], ignoreIndex, divisor, padding);
      var head := PairLoss(tr, w, ps[0], ignoreIndex, divisor, padding);
      var rest := PairLosses(tr, w, hidden, ps[1..], ignoreIndex, divisor, padding);
      assert ([head] + rest)[1..] == rest;
      if ps[0].1 == ignoreIndex {
        assert head == Finite(0.0);
      } else {
        var keptRest := Kept(ps[1..], ignoreIndex);
        assert Kept(ps, ignoreIndex) == [ps[0]] + keptRest;
        PairLossesCons(tr, w, hidden, [ps[0]] + keptRest, ignoreIndex, divisor, padding);
        assert ([ps[0]] + keptRest)[1..] == keptRest;
      }
    }
  }

  /** The loss of `forward` in terms of its (feature, label) pairs. */
  lemma ReferenceLossOfPairs(inp: ForwardInput, tr: Transcendentals, padding: nat)
    requires Represents(inp) && Accepted(inp)
    ensures PairsFit(Zip(inp.feat, inp.labels), inp.weight, inp.featShape[2])
    ensures ForwardReference(inp, tr, padding).value.loss
         == SumLosses(PairLosses(tr, inp.weight, inp.featShape[2], Zip(inp.feat, inp.labels), inp.ignoreIndex,
                                 Divisor(inp.labels, inp.ignoreIndex, inp.reduction), padding))
  {
    assert Losses(ReferenceRows(inp, tr, padding))
        == PairLosses(tr, inp.weight, inp.featShape[2], Zip(inp.feat, inp.labels), inp.ignoreIndex,
                      Divisor(inp.labels, inp.ignoreIndex, inp.reduction), padding);
  }

  /** The loss depends only on the kept pairs and on the reduction. */
  lemma LossOfKeptPairs(inp: ForwardInput, tr: Transcendentals, padding: nat)
    requires Represents(inp) && Accepted(inp)
    ensures PairsFit(Kept(Zip(inp.feat, inp.labels), inp.ignoreIndex), inp.weight, inp.featShape[2])
    ensures var kept := Kept(Zip(inp.feat, inp.labels), inp.ignoreIndex);
      ForwardReference(inp, tr, padding).value.loss
      == SumLosses(PairLosses(tr, inp.weight, inp.featShape[2], kept, inp.ignoreIndex,
                              if inp.reduction == "mean" then |kept| as real else 1.0, padding))
  {
    var ps := Zip(inp.feat, inp.labels);
    var d := Divisor(inp.labels, inp.ignoreIndex, inp.reduction);
    ReferenceLossOfPairs(inp, tr, padding);
    assert Labels(ps) == inp.labels;
    CountKeptIsKeptLength(ps, inp.ignoreIndex);
    SumSkipsIgnored(tr, inp.weight, inp.featShape[2], ps, inp.ignoreIndex, d, padding);
  }

  /** The padded layout's input to `fused_cel_linear` (lines 301-320). */
  function PaddedInput(a: LayerArgs, nLoopIters: int, ignoreIndex: int, reduction: string): ForwardInput
  {
    LinearInput(a, a.hidden, a.seqLen, PaddedLabels(a.labels, ignoreIndex), Pred(a.labelLen) + 1,
                nLoopIters, ignoreIndex, reduction)
  }

  /** The trimmed layout's input to `fused_cel_linear` (lines 321-337). */
  function TrimmedInput(a: LayerArgs, nLoopIters: int, ignoreIndex: int, reduction: string): ForwardInput
  {
    LinearInput(a, TrimmedHidden(a.hidden), Pred(a.seqLen), TrimmedLabels(a.labels), Pred(a.labelLen),
                nLoopIters, ignoreIndex, reduction)
  }

  lemma PaddedLayer(tr: Transcendentals, padding: nat, a: LayerArgs, nLoopIters: int, ignoreIndex: int,
                    reduction: string)
    requires LayerWellFormed(a) && nLoopIters > 1
    ensures Represents(PaddedInput(a, nLoopIters, ignoreIndex, reduction))
    ensures FusedCelLayer(tr, padding, a, nLoopIters, ignoreIndex, reduction)
         == ForwardReference(PaddedInput(a, nLoopIters, ignoreIndex, reduction), tr, padding)
  {
    LinearInputRepresents(a, a.hidden, a.seqLen, PaddedLabels(a.labels, ignoreIndex), Pred(a.labelLen) + 1,
                          nLoopIters, ignoreIndex, reduction);
  }

  lemma TrimmedLayer(tr: Transcendentals, padding: nat, a: LayerArgs, nLoopIters: int, ignoreIndex: int,
                     reduction: string)
    requires LayerWellFormed(a) && nLoopIters <= 1
    ensures Represents(TrimmedInput(a, nLoopIters, ignoreIndex, reduction))
    ensures FusedCelLayer(tr, padding, a, nLoopIters, ignoreIndex, reduction)
         == ForwardReference(TrimmedInput(a, nLoopIters, ignoreIndex, reduction), tr, padding)
  {
    LinearInputRepresents(a, TrimmedHidden(a.hidden), Pred(a.seqLen), TrimmedLabels(a.labels), Pred(a.labelLen),
                          nLoopIters, ignoreIndex, reduction);
  }

  /** Lines 301-337: with `n_loop_iters > 1` (padded layout) and with
      `n_loop_iters == 1` (trimmed layout) the layer returns the same loss,
      for hidden states and labels both of shape `(bs, seqlen)`. */
  lemma ShiftConventionsAgree(tr: Transcendentals, padding: nat, a: LayerArgs,
                              nLoopIters: int, ignoreIndex: int, reduction: string)
    requires LayerWellFormed(a) && |a.labels| == |a.hidden| && a.labelLen == a.seqLen
    requires nLoopIters > 1 && FusedCelLayer(tr, padding, a, nLoopIters, ignoreIndex, reduction).Ok?
    ensures FusedCelLayer(tr, padding, a, 1, ignoreIndex, reduction).Ok?
    ensures FusedCelLayer(tr, padding, a, nLoopIters, ignoreIndex, reduction).value.loss
         == FusedCelLayer(tr, padding, a, 1, ignoreIndex, reduction).value.loss
  {
    PaddedLayer(tr, padding, a, nLoopIters, ignoreIndex, reduction);
    TrimmedLayer(tr, padding, a, 1, ignoreIndex, reduction);
    LayoutsSameLoss(tr, padding, a, nLoopIters, ignoreIndex, reduction);
  }

  /** Both layouts are accepted together and keep the same (feature, label) pairs. */
  lemma LayoutsSameLoss(tr: Transcendentals, padding: nat, a: LayerArgs,
                        nLoopIters: int, ignoreIndex: int, reduction: string)
    requires LayerWellFormed(a) && |a.labels| == |a.hidden| && a.labelLen == a.seqLen && nLoopIters > 1
    requires Represents(PaddedInput(a, nLoopIters, ignoreIndex, reduction))
    requires Represents(TrimmedInput(a, 1, ignoreIndex, reduction))
    requires Accepted(PaddedInput(a, nLoopIters, ignoreIndex, reduction))
    ensures Accepted(TrimmedInput(a, 1, ignoreIndex, reduction))
    ensures ForwardReference(PaddedInput(a, nLoopIters, ignoreIndex, reduction), tr, padding).value.loss
         == ForwardReference(TrimmedInput(a, 1, ignoreIndex, reduction), tr, padding).value.loss
  {
    var pIn := PaddedInput(a, nLoopIters, ignoreIndex, reduction);
    var tIn := TrimmedInput(a, 1, ignoreIndex, reduction);
    if a.seqLen == 0 {
      EmptyLayoutsAgree(a, nLoopIters, ignoreIndex, reduction);
    } else {
      FlattenLength(TrimmedHidden(a.hidden), a.seqLen - 1);
      FlattenLength(TrimmedLabels(a.labels), a.seqLen - 1);
      assert Accepted(tIn);
      LayoutsKeepSamePairs(a.hidden, a.labels, a.seqLen, ignoreIndex);
    }
    LossOfKeptPairs(pIn, tr, padding);
    LossOfKeptPairs(tIn, tr, padding);
  }

  /** With no positions, the padded layout has `bs` labels for no features, so `bs` is 0. */
  lemma EmptyLayoutsAgree(a: LayerArgs, nLoopIters: int, ignoreIndex: int, reduction: string)
    requires LayerWellFormed(a) && |a.labels| == |a.hidden| && a.labelLen == a.seqLen && a.seqLen == 0
    requires nLoopIters > 1
    requires Represents(PaddedInput(a, nLoopIters, ignoreIndex, reduction))
    requires Accepted(PaddedInput(a, nLoopIters, ignoreIndex, reduction))
    ensures Accepted(TrimmedInput(a, 1, ignoreIndex, reduction))
    ensures TrimmedInput(a, 1, ignoreIndex, reduction).feat == PaddedInput(a, nLoopIters, ignoreIndex, reduction).feat
    ensures TrimmedInput(a, 1, ignoreIndex, reduction).labels == PaddedInput(a, nLoopIters, ignoreIndex, reduction).labels
  {
    var B := |a.hidden|;
    assert B * 0 == B * 1;
    assert B == 0;
    assert TrimmedHidden(a.hidden) == [] && TrimmedLabels(a.labels) == [] && a.hidden == [];
    assert PaddedLabels(a.labels, ignoreIndex) == [];
  }
}
