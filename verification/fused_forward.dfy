/** `FusedCrossEntropyLossFunction.forward`: argument validation, the global
    divisor, and the chunk loop that runs projection, kernel, feature-gradient
    slice write and weight-gradient accumulation over `n_loop_iters` equal
    token ranges, then sums the per-token loss buffer.

    `ForwardReference` is the same computation done in one pass over all
    tokens; the chunked `Forward` method is proved to return exactly it for
    every accepted `n_loop_iters`. */
module FusedForward {
  import opened Base
  import opened Numerics
  import opened Linear
  import opened FusedKernel

  /** The six arguments of `forward`, with each tensor as its shape, its
      values in the flattened `(tokens, hidden)` view, and the flags the code
      reads. */
  datatype ForwardInput = ForwardInput(
    featShape: seq<nat>, feat: Matrix, featDType: DType,
    weightShape: seq<nat>, weight: Matrix, weightRequiresGrad: bool,
    labelShape: seq<nat>, labels: seq<int>,
    autocast: Option<DType>,
    nLoopIters: int, ignoreIndex: int, reduction: string)

  /** Every way `forward` fails, in the order the code can hit them. */
  datatype ForwardError =
    | FeatureNot3D          // ValueError unpacking `bs, seqlen, hidden_dim`
    | ZeroHiddenView        // RuntimeError: `view(-1, 0)` is ambiguous
    | FeatureCannotRequireGrad  // RuntimeError: `requires_grad_(True)` on a non-floating, non-complex dtype
    | WeightHasNoDims       // IndexError reading `proj_weight.shape[0]`
    | FeatureNot2D          // assert in_feat.ndim == 2
    | WeightNot2D           // assert proj_weight.ndim == 2
    | LabelsNot1D           // assert targ.ndim == 1
    | TokenCountMismatch    // assert in_feat.shape[0] == targ.shape[0]
    | BadReduction          // assert reduction in ("mean", "sum")
    | NonPositiveLoopIters  // assert n_loop_iters > 0
    | TokensNotDivisible    // assert n_tokens % n_loop_iters == 0
    | HiddenMismatch        // torch.matmul shape error in the first chunk
    | EmptyVocabulary       // BLOCK_SIZE = next_power_of_2(0) = 0: `tl.arange(0, 0)` does not compile

  function Product(s: seq<nat>): nat
  {
    if |s| == 0 then 1 else s[0] * Product(s[1..])
  }

  /** The values agree with the shapes they claim (a representation invariant,
      not a check the code makes). */
  predicate Represents(inp: ForwardInput)
  {
    && (|inp.featShape| == 3 ==>
          IsMatrix(inp.feat, inp.featShape[0] * inp.featShape[1], inp.featShape[2]))
    && (|inp.weightShape| == 2 ==>
          IsMatrix(inp.weight, inp.weightShape[0], inp.weightShape[1]))
    && |inp.labels| == Product(inp.labelShape)
  }

  /** Shape of `in_feat.view(-1, in_feat.shape[-1])` for a 3-D feature. */
  function FeatureViewShape(featShape: seq<nat>): seq<nat>
    requires |featShape| == 3
  {
    [featShape[0] * featShape[1], featShape[2]]
  }

  /** Shape of `targ.view(-1)`. */
  function LabelViewShape(labelShape: seq<nat>): seq<nat>
  {
    [Product(labelShape)]
  }

  /** The torch dtypes other than the three float types that may require a
      gradient: the remaining floating-point and complex ones. */
  const OtherGradDTypes: set<string> :=
    {"float64", "float8_e4m3fn", "float8_e4m3fnuz", "float8_e5m2", "float8_e5m2fnuz",
     "complex32", "complex64", "complex128"}

  /** Only floating-point and complex tensors can require a gradient. */
  predicate CanRequireGrad(d: DType)
  {
    match d
    case OtherDType(name) => name in OtherGradDTypes
    case _ => true
  }

  /** Everything `forward` requires of its arguments, stated directly. */
  predicate Accepted(inp: ForwardInput)
  {
    && |inp.featShape| == 3 && inp.featShape[2] > 0
    && CanRequireGrad(inp.featDType)
    && |inp.weightShape| == 2
    && inp.featShape[0] * inp.featShape[1] == |inp.labels|
    && (inp.reduction == "mean" || inp.reduction == "sum")
    && inp.nLoopIters > 0
    && (inp.featShape[0] * inp.featShape[1]) % inp.nLoopIters == 0
    && inp.featShape[2] == inp.weightShape[1]
    && inp.weightShape[0] > 0
  }

  /** The checks of lines 117-144, the matmul's shape check (line 189) and
      the kernel's block size (lines 147 and 55), in the order the code
      reaches them. Positivity of `n_loop_iters` is decided before the modulo
      is taken. With no classes `BLOCK_SIZE` is 0 and the kernel fails to
      compile at its first launch; `torch.split` yields one (empty) chunk even
      when there are no tokens, so that launch is always reached. */
  function Validate(inp: ForwardInput): (r: Option<ForwardError>)
    requires Represents(inp)
    ensures r.None? <==> Accepted(inp)
    ensures |inp.weightShape| == 2 && inp.weightShape[0] == 0 ==> r.Some?
    ensures |inp.featShape| == 3 && inp.featShape[2] > 0 && !CanRequireGrad(inp.featDType)
            ==> r == Some(FeatureCannotRequireGrad)
    ensures |inp.featShape| == 3 && inp.featShape[2] > 0 && CanRequireGrad(inp.featDType)
            && |inp.weightShape| == 2
            && inp.featShape[0] * inp.featShape[1] == |inp.labels|
            && (inp.reduction == "mean" || inp.reduction == "sum")
            && inp.nLoopIters <= 0
            ==> r == Some(NonPositiveLoopIters)
  {
    if |inp.featShape| != 3 then Some(FeatureNot3D)
    else if inp.featShape[2] == 0 then Some(ZeroHiddenView)
    else if !CanRequireGrad(inp.featDType) then Some(FeatureCannotRequireGrad)
    else if |inp.weightShape| == 0 then Some(WeightHasNoDims)
    else if |FeatureViewShape(inp.featShape)| != 2 then Some(FeatureNot2D)
    else if |inp.weightShape| != 2 then Some(WeightNot2D)
    else if |LabelViewShape(inp.labelShape)| != 1 then Some(LabelsNot1D)
    else if FeatureViewShape(inp.featShape)[0] != LabelViewShape(inp.labelShape)[0]
    then Some(TokenCountMismatch)
    else if !(inp.reduction == "mean" || inp.reduction == "sum") then Some(BadReduction)
    else if inp.nLoopIters <= 0 then Some(NonPositiveLoopIters)
    else if FeatureViewShape(inp.featShape)[0] % inp.nLoopIters != 0 then Some(TokensNotDivisible)
    else if inp.featShape[2] != inp.weightShape[1] then Some(HiddenMismatch)
    else if inp.weightShape[0] == 0 then Some(EmptyVocabulary)
    else None
  }

  /** After the views the rank assertions on the feature and the labels are
      dead: only the weight's rank can be wrong. */
  lemma ViewRankAssertionsNeverFire(inp: ForwardInput)
    requires Represents(inp)
    ensures Validate(inp) != Some(FeatureNot2D) && Validate(inp) != Some(LabelsNot1D)
  {
  }

  /** The number of targets that are not `ignore_index`. */
  function CountKept(labels: seq<int>, ignoreIndex: int): (n: nat)
    ensures n <= |labels|
    ensures n == 0 <==> forall t :: 0 <= t < |labels| ==> labels[t] == ignoreIndex
  {
    if |labels| == 0 then 0
    else
      assert forall t :: 1 <= t < |labels| ==> labels[t] == labels[1..][t - 1];
      (if labels[0] != ignoreIndex then 1 else 0) + CountKept(labels[1..], ignoreIndex)
  }

  /** Lines 168-172: the kept-target count for "mean", 1 otherwise. Computed
      once over all tokens, so every kept row sees a divisor of at least 1. */
  function Divisor(labels: seq<int>, ignoreIndex: int, reduction: string): (d: real)
    ensures d >= 0.0
    ensures forall t :: 0 <= t < |labels| && labels[t] != ignoreIndex ==> d >= 1.0
    ensures d == 0.0 ==> forall t :: 0 <= t < |labels| ==> labels[t] == ignoreIndex
  {
    if reduction == "mean" then CountKept(labels, ignoreIndex) as real else 1.0
  }

  /** The kernel launched over the rows of a logits matrix. */
  function KernelRows(tr: Transcendentals, logits: Matrix, labels: seq<int>, ignoreIndex: int,
                      divisor: real, padding: nat): (rows: seq<RowOut>)
    requires |labels| == |logits|
    requires forall t :: 0 <= t < |labels| && labels[t] != ignoreIndex ==> divisor > 0.0
    ensures |rows| == |logits|
    ensures forall t :: 0 <= t < |logits| ==>
      rows[t] == KernelRow(tr, logits[t], labels[t], ignoreIndex, divisor, padding)
  {
    seq(|logits|, t requires 0 <= t < |logits| =>
      KernelRow(tr, logits[t], labels[t], ignoreIndex, divisor, padding))
  }

  function Losses(rows: seq<RowOut>): (l: seq<Loss>)
    ensures |l| == |rows| && forall t :: 0 <= t < |rows| ==> l[t] == rows[t].loss
  {
    seq(|rows|, t requires 0 <= t < |rows| => rows[t].loss)
  }

  function Grads(rows: seq<RowOut>): (g: Matrix)
    ensures |g| == |rows| && forall t :: 0 <= t < |rows| ==> g[t] == rows[t].grad
  {
    seq(|rows|, t requires 0 <= t < |rows| => rows[t].grad)
  }

  /** A saved gradient: its dtype, the shape it is viewed with, its values. */
  datatype Grad = Grad(dtype: DType, shape: seq<nat>, values: Matrix)

  /** The autograd context: the two flags and the `save_for_backward` tuple. */
  datatype Ctx = Ctx(inFeatRequiresGrad: bool, projWeightRequiresGrad: bool, saved: seq<Grad>)

  datatype ForwardOutput = ForwardOutput(loss: Loss, ctx: Ctx)

  /** Lines 240-247: the saved tuple holds the present gradients, feature first. */
  function SaveForBackward(inReq: bool, wReq: bool, gIn: Option<Grad>, gW: Option<Grad>): (saved: seq<Grad>)
    requires gIn.Some? == inReq && gW.Some? == wReq
    ensures |saved| == (if inReq then 1 else 0) + (if wReq then 1 else 0)
  {
    if wReq && inReq then [gIn.value, gW.value]
    else if wReq then [gW.value]
    else if inReq then [gIn.value]
    else []
  }

  /** The dtype the chunk matmuls run in: autocast's if enabled, else the feature's. */
  function ComputeDType(inp: ForwardInput): DType
  {
    match inp.autocast
    case Some(t) => t
    case None => inp.featDType
  }

  /** The forward's result from its loss buffer and its two gradient buffers. */
  function Assemble(inp: ForwardInput, loss: seq<Loss>, gradIn: Matrix, gradW: Matrix): (out: ForwardOutput)
    ensures out.loss == SumLosses(loss)
    ensures |out.ctx.saved| == (if inp.weightRequiresGrad then 2 else 1)
    ensures out.ctx.saved[0] == Grad(inp.featDType, inp.featShape, gradIn)
    ensures inp.weightRequiresGrad ==> out.ctx.saved[1] == Grad(ComputeDType(inp), inp.weightShape, gradW)
  {
    var gIn := Grad(inp.featDType, inp.featShape, gradIn);
    var gW := if inp.weightRequiresGrad then Some(Grad(ComputeDType(inp), inp.weightShape, gradW)) else None;
    ForwardOutput(SumLosses(loss),
                  Ctx(true, inp.weightRequiresGrad,
                      SaveForBackward(true, inp.weightRequiresGrad, Some(gIn), gW)))
  }

  /** Every token's kernel output when all tokens are processed at once. */
  function ReferenceRows(inp: ForwardInput, tr: Transcendentals, padding: nat): (rows: seq<RowOut>)
    requires Represents(inp) && Accepted(inp)
    ensures |rows| == |inp.labels|
  {
    KernelRows(tr, Logits(inp.feat, inp.weight, inp.featShape[2]), inp.labels, inp.ignoreIndex,
               Divisor(inp.labels, inp.ignoreIndex, inp.reduction), padding)
  }

  /** The whole forward computed in one pass over all tokens. */
  function ForwardReference(inp: ForwardInput, tr: Transcendentals, padding: nat)
    : (r: Result<ForwardOutput, ForwardError>)
    requires Represents(inp)
    ensures r.Err? <==> !Accepted(inp)
    ensures r.Err? ==> Some(r.error) == Validate(inp)
    ensures r.Ok? ==> r.value.ctx.inFeatRequiresGrad
    ensures r.Ok? ==> r.value.ctx.projWeightRequiresGrad == inp.weightRequiresGrad
  {
    match Validate(inp)
    case Some(e) => Err(e)
    case None =>
      var g := Grads(ReferenceRows(inp, tr, padding));
      Ok(Assemble(inp, Losses(ReferenceRows(inp, tr, padding)),
                  FeatureGrad(g, inp.weight, inp.featShape[2]),
                  WeightGrad(g, inp.feat, |inp.weight|, inp.featShape[2])))
  }

  /** Without a weight gradient the weight buffer is not part of the result. */
  lemma AssembleIgnoresUnusedWeightGrad(inp: ForwardInput, loss: seq<Loss>, gradIn: Matrix, w1: Matrix, w2: Matrix)
    requires !inp.weightRequiresGrad
    ensures Assemble(inp, loss, gradIn, w1) == Assemble(inp, loss, gradIn, w2)
  {
  }

  /** Token `t` lies in chunk `i` of size `c`. */
  predicate InChunk(t: int, i: int, c: int)
  {
    i * c <= t < (i + 1) * c
  }

  /** The `n_loop_iters` chunks of size `n_tokens / n_loop_iters` partition
      `[0, n_tokens)`: every token lies in exactly one chunk, chunk `t / c`. */
  lemma ChunksPartition(n: nat, k: int)
    requires k > 0 && n % k == 0
    ensures var c := n / k;
      && k * c == n
      && (forall t :: 0 <= t < n ==> 0 <= t / c < k && InChunk(t, t / c, c))
      && (forall t, i :: 0 <= t < n && InChunk(t, i, c) ==> i == t / c)
  {
    var c := n / k;
    assert k * c == n;
    forall t | 0 <= t < n
      ensures 0 <= t / c < k && InChunk(t, t / c, c)
    {
      assert c > 0;
      var q := t / c;
      assert q * c <= t < q * c + c;
      if q >= k {
        MulMonotone(k, q, c);
        assert false;
      }
    }
    forall t, i | 0 <= t < n && InChunk(t, i, c)
      ensures i == t / c
    {
      assert c > 0;
      var q := t / c;
      assert q * c <= t < q * c + c;
      if i < q {
        MulMonotone(i + 1, q, c);
        assert false;
      } else if i > q {
        MulMonotone(q + 1, i, c);
        assert false;
      }
    }
  }

  lemma MulMonotone(a: int, b: int, c: nat)
    requires a <= b
    ensures a * c <= b * c
  {
  }

  /** Where chunk `i` of size `c` starts, `i * c`, counted chunk by chunk. */
  function ChunkStart(i: nat, c: nat): nat
  {
    if i == 0 then 0 else ChunkStart(i - 1, c) + c
  }

  lemma {:induction false} ChunkStartIsProduct(i: nat, c: nat)
    ensures ChunkStart(i, c) == i * c
  {
    if i > 0 {
      ChunkStartIsProduct(i - 1, c);
      assert (i - 1) * c + c == i * c;
    }
  }

  /** Chunk `i < k` ends no later than chunk `k - 1`. */
  lemma {:induction false} ChunkInBounds(i: nat, k: nat, c: nat)
    requires i < k
    ensures ChunkStart(i + 1, c) <= ChunkStart(k, c)
  {
    if i + 1 < k {
      ChunkInBounds(i, k - 1, c);
    }
  }

  /** `k` chunks of `n / k` tokens cover the `n` tokens exactly. */
  lemma ChunkTotal(n: nat, k: int)
    requires k > 0 && n % k == 0
    ensures ChunkStart(k, n / k) == n
  {
    ChunkStartIsProduct(k, n / k);
  }

  lemma KernelRowsSlice(tr: Transcendentals, x: Matrix, w: Matrix, hidden: nat, labels: seq<int>,
                        ignoreIndex: int, divisor: real, padding: nat, a: nat, b: nat)
    requires IsMatrix(x, |x|, hidden) && IsMatrix(w, |w|, hidden) && |labels| == |x|
    requires forall t :: 0 <= t < |labels| && labels[t] != ignoreIndex ==> divisor > 0.0
    requires a <= b <= |x|
    ensures KernelRows(tr, Logits(x[a..b], w, hidden), labels[a..b], ignoreIndex, divisor, padding)
         == KernelRows(tr, Logits(x, w, hidden), labels, ignoreIndex, divisor, padding)[a..b]
  {
  }

  /** `buf[start:start + len(part)] = part`. */
  function Splice<T>(buf: seq<T>, start: nat, part: seq<T>): (r: seq<T>)
    requires start + |part| <= |buf|
    ensures |r| == |buf|
    ensures forall t :: 0 <= t < start ==> r[t] == buf[t]
    ensures forall t :: start <= t < start + |part| ==> r[t] == part[t - start]
    ensures forall t :: start + |part| <= t < |buf| ==> r[t] == buf[t]
  {
    buf[..start] + part + buf[start + |part|..]
  }

  /** Writing the reference's slice `a..a+|part|` into a buffer that already
      agrees with the reference below `a` extends the agreement to the slice's end. */
  lemma SplicePrefix<T>(buf: seq<T>, ref: seq<T>, a: nat, part: seq<T>)
    requires a + |part| <= |buf| && a + |part| <= |ref|
    requires buf[..a] == ref[..a] && part == ref[a..a + |part|]
    ensures Splice(buf, a, part)[..a + |part|] == ref[..a + |part|]
  {
    var r := Splice(buf, a, part);
    forall t | 0 <= t < a + |part|
      ensures r[t] == ref[t]
    {
      if t < a {
        assert buf[..a][t] == ref[..a][t];
      } else {
        assert part[t - a] == ref[a..a + |part|][t - a];
      }
    }
  }

  lemma RowsSlice(rows: seq<RowOut>, a: nat, b: nat)
    requires a <= b <= |rows|
    ensures Losses(rows[a..b]) == Losses(rows)[a..b]
    ensures Grads(rows[a..b]) == Grads(rows)[a..b]
  {
  }

  /** Adding the chunk `a..b`'s weight gradient to that of the tokens before `a`. */
  lemma WeightGradPrefix(g: Matrix, x: Matrix, classes: nat, hidden: nat, a: nat, b: nat)
    requires |g| == |x| && IsMatrix(g, |g|, classes) && IsMatrix(x, |x|, hidden)
    requires a <= b <= |x|
    ensures WeightGrad(g[..b], x[..b], classes, hidden)
         == AddMatrix(WeightGrad(g[..a], x[..a], classes, hidden),
                      WeightGrad(g[a..b], x[a..b], classes, hidden), classes, hidden)
  {
    assert g[..b] == g[..a] + g[a..b];
    assert x[..b] == x[..a] + x[a..b];
    WeightGradSplit(g[..a], g[a..b], x[..a], x[a..b], classes, hidden);
  }

  /** What the chunk loop reads once the arguments are validated: the
      flattened feature and weight, the targets, the divisor, the padding of
      the kernel block and whether a weight gradient is wanted. */
  datatype Batch = Batch(x: Matrix, w: Matrix, hidden: nat, labels: seq<int>, ignoreIndex: int,
                         divisor: real, padding: nat, wantWeightGrad: bool)

  predicate WellFormed(b: Batch)
  {
    && IsMatrix(b.x, |b.x|, b.hidden) && IsMatrix(b.w, |b.w|, b.hidden) && |b.labels| == |b.x|
    && forall t :: 0 <= t < |b.labels| && b.labels[t] != b.ignoreIndex ==> b.divisor > 0.0
  }

  function BatchRows(tr: Transcendentals, b: Batch): (rows: seq<RowOut>)
    requires WellFormed(b)
    ensures |rows| == |b.x|
  {
    KernelRows(tr, Logits(b.x, b.w, b.hidden), b.labels, b.ignoreIndex, b.divisor, b.padding)
  }

  /** The one-pass result the buffers are compared against: the losses, the
      logit gradients and the feature gradient of every token. */
  datatype Expected = Expected(losses: seq<Loss>, g: Matrix, featGrad: Matrix)

  function ExpectedOf(tr: Transcendentals, b: Batch): (e: Expected)
    requires WellFormed(b)
    ensures Fits(b, e)
  {
    var g := Grads(BatchRows(tr, b));
    Expected(Losses(BatchRows(tr, b)), g, FeatureGrad(g, b.w, b.hidden))
  }

  predicate Fits(b: Batch, e: Expected)
  {
    && IsMatrix(b.x, |b.x|, b.hidden)
    && |e.losses| == |b.x| && |e.featGrad| == |b.x| && IsMatrix(e.g, |b.x|, |b.w|)
  }

  /** The three buffers `forward` fills: `loss`, `grad_in_feat`, `grad_proj_weight`. */
  datatype Buffers = Buffers(loss: seq<Loss>, gradIn: Matrix, gradW: Matrix)

  predicate Sized(b: Batch, buf: Buffers)
  {
    |buf.loss| == |b.x| && |buf.gradIn| == |b.x| && IsMatrix(buf.gradW, |b.w|, b.hidden)
  }

  /** The buffers hold the one-pass result for the tokens below `done`. */
  predicate Agrees(b: Batch, e: Expected, done: nat, buf: Buffers)
    requires Fits(b, e) && done <= |b.x|
  {
    && Sized(b, buf)
    && buf.loss[..done] == e.losses[..done]
    && buf.gradIn[..done] == e.featGrad[..done]
    && (b.wantWeightGrad ==> buf.gradW == WeightGrad(e.g[..done], b.x[..done], |b.w|, b.hidden))
  }

  /** The kernel's rows for tokens `start..start + c`: the chunk's logits
      `x[start..start + c] @ W.T` (line 189) run through the kernel (lines 201-215). */
  function ChunkRows(tr: Transcendentals, b: Batch, start: nat, c: nat): (rows: seq<RowOut>)
    requires WellFormed(b) && start + c <= |b.x|
    ensures |rows| == c && forall t :: 0 <= t < c ==> |rows[t].grad| == |b.w|
  {
    KernelRows(tr, Logits(b.x[start..start + c], b.w, b.hidden), b.labels[start..start + c],
               b.ignoreIndex, b.divisor, b.padding)
  }

  /** One iteration of the chunk loop (lines 182-230): write the chunk's losses
      and feature gradient into their slices and accumulate its weight gradient. */
  function ChunkUpdate(b: Batch, start: nat, rows: seq<RowOut>, buf: Buffers): (r: Buffers)
    requires IsMatrix(b.x, |b.x|, b.hidden) && IsMatrix(b.w, |b.w|, b.hidden)
    requires start + |rows| <= |b.x| && Sized(b, buf)
    requires forall t :: 0 <= t < |rows| ==> |rows[t].grad| == |b.w|
    ensures Sized(b, r)
  {
    var g := Grads(rows);
    Buffers(Splice(buf.loss, start, Losses(rows)),
            Splice(buf.gradIn, start, FeatureGrad(g, b.w, b.hidden)),
            if b.wantWeightGrad
            then AddMatrix(buf.gradW, WeightGrad(g, b.x[start..start + |rows|], |b.w|, b.hidden), |b.w|, b.hidden)
            else buf.gradW)
  }

  function ZeroBuffers(b: Batch): (r: Buffers)
    ensures Sized(b, r)
  {
    Buffers(seq(|b.x|, t => Finite(0.0)), ZeroMatrix(|b.x|, b.hidden), ZeroMatrix(|b.w|, b.hidden))
  }

  /** A chunk written over buffers that agree up to its start extends the agreement to its end. */
  lemma ChunkUpdateAgrees(tr: Transcendentals, b: Batch, e: Expected, start: nat, c: nat, buf: Buffers)
    requires WellFormed(b) && e == ExpectedOf(tr, b) && start + c <= |b.x|
    requires Agrees(b, e, start, buf)
    ensures Agrees(b, e, start + c, ChunkUpdate(b, start, ChunkRows(tr, b, start, c), buf))
  {
    var rows := BatchRows(tr, b);
    var g := Grads(rows);
    var chunkRows := ChunkRows(tr, b, start, c);
    KernelRowsSlice(tr, b.x, b.w, b.hidden, b.labels, b.ignoreIndex, b.divisor, b.padding, start, start + c);
    RowsSlice(rows, start, start + c);
    FeatureGradSlice(g, b.w, b.hidden, start, start + c);
    var gChunk := Grads(chunkRows);
    SplicePrefix(buf.loss, Losses(rows), start, Losses(chunkRows));
    SplicePrefix(buf.gradIn, FeatureGrad(g, b.w, b.hidden), start, FeatureGrad(gChunk, b.w, b.hidden));
    if b.wantWeightGrad {
      WeightGradPrefix(g, b.x, |b.w|, b.hidden, start, start + c);
    }
  }

  /** The chunk loop (lines 182-230) over `k` chunks of `c` tokens. After
      `i` iterations the buffers hold the one-pass result for the first
      `i * c` tokens, so after all `k` they hold it up to the last chunk's end. */
  method ChunkLoop(tr: Transcendentals, b: Batch, e: Expected, k: nat, c: nat) returns (buf: Buffers)
    requires WellFormed(b) && e == ExpectedOf(tr, b) && ChunkStart(k, c) <= |b.x|
    ensures Agrees(b, e, ChunkStart(k, c), buf)
  {
    buf := ZeroBuffers(b);
    WeightGradEmpty(|b.w|, b.hidden);
    var i := 0;
    while i < k
      invariant 0 <= i <= k && ChunkStart(i, c) <= |b.x|
      invariant Agrees(b, e, ChunkStart(i, c), buf)
    {
      ChunkInBounds(i, k, c);
      buf := ChunkStep(tr, b, e, i, c, buf);
      i := i + 1;
    }
  }

  /** One pass of the loop body: the kernel on chunk `i`, then the buffer
      update, which extends agreement with the one-pass result by one chunk. */
  method ChunkStep(tr: Transcendentals, b: Batch, e: Expected, i: nat, c: nat, buf: Buffers)
    returns (buf': Buffers)
    requires WellFormed(b) && e == ExpectedOf(tr, b) && ChunkStart(i + 1, c) <= |b.x|
    requires Agrees(b, e, ChunkStart(i, c), buf)
    ensures Agrees(b, e, ChunkStart(i + 1, c), buf')
  {
    var start := ChunkStart(i, c);
    var rows := ChunkRows(tr, b, start, c);
    ChunkUpdateAgrees(tr, b, e, start, c, buf);
    buf' := ChunkUpdate(b, start, rows, buf);
  }

  /** Lines 177-230: `k` chunks of `|x| / k` tokens leave in the buffers
      exactly the one-pass losses and gradients. */
  method RunChunks(tr: Transcendentals, b: Batch, k: int)
    returns (loss: seq<Loss>, gradIn: Matrix, gradW: Matrix)
    requires WellFormed(b) && k > 0 && |b.x| % k == 0
    ensures loss == ExpectedOf(tr, b).losses && gradIn == ExpectedOf(tr, b).featGrad
    ensures b.wantWeightGrad ==> gradW == WeightGrad(ExpectedOf(tr, b).g, b.x, |b.w|, b.hidden)
  {
    var c := |b.x| / k;
    ChunkTotal(|b.x|, k);
    var e := ExpectedOf(tr, b);
    var buf := ChunkLoop(tr, b, e, k, c);
    AgreesFinally(b, e, buf);
    loss, gradIn, gradW := buf.loss, buf.gradIn, buf.gradW;
  }

  /** Buffers that agree on every token are the reference. */
  lemma AgreesFinally(b: Batch, e: Expected, buf: Buffers)
    requires Fits(b, e) && Agrees(b, e, |b.x|, buf)
    ensures buf.loss == e.losses && buf.gradIn == e.featGrad
    ensures b.wantWeightGrad ==> buf.gradW == WeightGrad(e.g, b.x, |b.w|, b.hidden)
  {
    var n := |b.x|;
    assert buf.loss == buf.loss[..n] && buf.gradIn == buf.gradIn[..n];
    assert e.losses == e.losses[..n] && e.featGrad == e.featGrad[..n];
    assert e.g[..n] == e.g && b.x[..n] == b.x;
  }

  /** The batch an accepted input hands to the chunk loop. */
  function BatchOf(inp: ForwardInput, padding: nat): (b: Batch)
    requires Represents(inp) && Accepted(inp)
    ensures WellFormed(b)
  {
    Batch(inp.feat, inp.weight, inp.featShape[2], inp.labels, inp.ignoreIndex,
          Divisor(inp.labels, inp.ignoreIndex, inp.reduction), padding, inp.weightRequiresGrad)
  }

  /** `FusedCrossEntropyLossFunction.forward` (lines 105-249). The result is
      the one-pass reference whatever `n_loop_iters` is. */
  method Forward(inp: ForwardInput, tr: Transcendentals, padding: nat)
    returns (r: Result<ForwardOutput, ForwardError>)
    requires Represents(inp)
    ensures r == ForwardReference(inp, tr, padding)
  {
    var check := Validate(inp);
    if check.Some? {
      return Err(check.value);
    }
    var b := BatchOf(inp, padding);
    assert BatchRows(tr, b) == ReferenceRows(inp, tr, padding);
    var loss, gradIn, gradW := RunChunks(tr, b, inp.nLoopIters);
    var g := Grads(ReferenceRows(inp, tr, padding));
    if !inp.weightRequiresGrad {
      AssembleIgnoresUnusedWeightGrad(inp, loss, gradIn, gradW,
                                      WeightGrad(g, inp.feat, |inp.weight|, inp.featShape[2]));
    }
    r := Ok(Assemble(inp, loss, gradIn, gradW));
  }

  /** Dividing every term by the same positive divisor divides the sum. */
  lemma {:induction false} SumLossesDiv(l1: seq<Loss>, l2: seq<Loss>, d: real)
    requires |l1| == |l2| && d > 0.0
    requires forall i :: 0 <= i < |l1| ==> l1[i] == DivLoss(l2[i], d)
    ensures SumLosses(l1) == DivLoss(SumLosses(l2), d)
  {
    if |l1| > 0 {
      SumLossesDiv(l1[1..], l2[1..], d);
      assert l1[0] == DivLoss(l2[0], d);
    }
  }

  lemma {:induction false} SumLossesZeros(l: seq<Loss>)
    requires forall i :: 0 <= i < |l| ==> l[i] == Finite(0.0)
    ensures SumLosses(l) == Finite(0.0)
  {
    if |l| > 0 {
      SumLossesZeros(l[1..]);
    }
  }

  /** The loss `forward` returns is the reduction it was asked for over the
      per-token cross-entropies: their sum for "sum"; for "mean" their sum
      over the kept-token count, and 0 when every target is ignored. */
  lemma ForwardLossIsReduction(inp: ForwardInput, tr: Transcendentals, padding: nat)
    requires Represents(inp) && Accepted(inp)
    ensures var undivided := SumLosses(Losses(KernelRows(tr, Logits(inp.feat, inp.weight, inp.featShape[2]),
                                                         inp.labels, inp.ignoreIndex, 1.0, padding)));
      var kept := CountKept(inp.labels, inp.ignoreIndex);
      ForwardReference(inp, tr, padding).value.loss
      == if inp.reduction == "sum" then undivided
         else if kept == 0 then Finite(0.0)
         else DivLoss(undivided, kept as real)
  {
    var logits := Logits(inp.feat, inp.weight, inp.featShape[2]);
    var rows := ReferenceRows(inp, tr, padding);
    var ones := KernelRows(tr, logits, inp.labels, inp.ignoreIndex, 1.0, padding);
    var kept := CountKept(inp.labels, inp.ignoreIndex);
    var d := Divisor(inp.labels, inp.ignoreIndex, inp.reduction);
    assert ForwardReference(inp, tr, padding).value.loss == SumLosses(Losses(rows));
    if inp.reduction == "mean" {
      if kept == 0 {
        forall t | 0 <= t < |rows|
          ensures Losses(rows)[t] == Finite(0.0)
        {
          assert inp.labels[t] == inp.ignoreIndex;
        }
        SumLossesZeros(Losses(rows));
      } else {
        assert d == kept as real && d > 0.0;
        forall t | 0 <= t < |rows|
          ensures Losses(rows)[t] == DivLoss(Losses(ones)[t], d)
        {
          KernelDividesLoss(tr, logits[t], inp.labels[t], inp.ignoreIndex, d, padding);
        }
        SumLossesDiv(Losses(rows), Losses(ones), d);
      }
    }
  }

  lemma {:induction false} DotZeros(u: seq<real>, v: seq<real>)
    requires |u| == |v| && forall i :: 0 <= i < |u| ==> u[i] == 0.0
    ensures Dot(u, v) == 0.0
  {
    if |u| > 0 {
      DotZeros(u[1..], v[1..]);
    }
  }

  /** A token whose target is `ignore_index` receives a zero feature gradient. */
  lemma IgnoredTokenHasZeroFeatureGrad(inp: ForwardInput, tr: Transcendentals, padding: nat, t: nat, k: nat)
    requires Represents(inp) && Accepted(inp)
    requires t < |inp.labels| && inp.labels[t] == inp.ignoreIndex && k < inp.featShape[2]
    ensures ForwardReference(inp, tr, padding).value.ctx.saved[0].values[t][k] == 0.0
  {
    var hidden := inp.featShape[2];
    var rows := ReferenceRows(inp, tr, padding);
    var g := Grads(rows);
    assert ForwardReference(inp, tr, padding).value.ctx.saved[0].values == FeatureGrad(g, inp.weight, hidden);
    DotZeros(g[t], Column(inp.weight, k));
  }
}
