/** `FusedCrossEntropyLossFunction.backward`: recover the gradients `forward`
    saved, scale the float16 ones by the incoming gradient, and return one
    entry per `forward` argument. */
module FusedBackward {
  import opened Base
  import opened Numerics
  import opened Linear
  import opened FusedKernel
  import opened FusedForward

  /** `backward` fails only when the saved tuple does not have the arity its
      flags announce (a ValueError from tuple unpacking). */
  datatype BackwardError = SavedArityMismatch

  /** Lines 254-260: which saved tensors the flags name, in saving order. */
  function Unpack(ctx: Ctx): (r: Result<(Option<Grad>, Option<Grad>), BackwardError>)
    ensures r.Ok? ==> r.value.0.Some? == ctx.inFeatRequiresGrad
    ensures r.Ok? ==> r.value.1.Some? == ctx.projWeightRequiresGrad
  {
    if ctx.inFeatRequiresGrad && ctx.projWeightRequiresGrad then
      if |ctx.saved| == 2 then Ok((Some(ctx.saved[0]), Some(ctx.saved[1]))) else Err(SavedArityMismatch)
    else if !ctx.inFeatRequiresGrad && ctx.projWeightRequiresGrad then
      if |ctx.saved| == 1 then Ok((None, Some(ctx.saved[0]))) else Err(SavedArityMismatch)
    else if ctx.inFeatRequiresGrad && !ctx.projWeightRequiresGrad then
      if |ctx.saved| == 1 then Ok((Some(ctx.saved[0]), None)) else Err(SavedArityMismatch)
    else Ok((None, None))
  }

  /** Unpacking what `SaveForBackward` stored under the same flags gives the
      stored gradients back, for all four flag combinations. */
  lemma UnpackSaved(inReq: bool, wReq: bool, gIn: Option<Grad>, gW: Option<Grad>)
    requires gIn.Some? == inReq && gW.Some? == wReq
    ensures Unpack(Ctx(inReq, wReq, SaveForBackward(inReq, wReq, gIn, gW))) == Ok((gIn, gW))
  {
  }

  function ScaleMatrix(m: Matrix, k: real): (r: Matrix)
    ensures |r| == |m| && forall i :: 0 <= i < |m| ==> |r[i]| == |m[i]|
    ensures forall i, j :: 0 <= i < |m| && 0 <= j < |m[i]| ==> r[i][j] == m[i][j] * k
  {
    seq(|m|, i requires 0 <= i < |m| => seq(|m[i]|, j requires 0 <= j < |m[i]| => m[i][j] * k))
  }

  /** Lines 263-270: only a float16 gradient is multiplied by `grad_output`;
      every other dtype is passed through untouched. */
  function ScaleIfHalf(g: Option<Grad>, gradOutput: real): (r: Option<Grad>)
    ensures r.Some? == g.Some?
    ensures g.Some? ==> r.value.dtype == g.value.dtype && r.value.shape == g.value.shape
    ensures g.Some? ==> (|r.value.values| == |g.value.values| &&
                         forall i :: 0 <= i < |g.value.values| ==> |r.value.values[i]| == |g.value.values[i]|)
    ensures g.Some? && g.value.dtype != Float16 ==> r == g
    ensures g.Some? && g.value.dtype == Float16 ==>
      forall i, j :: 0 <= i < |g.value.values| && 0 <= j < |g.value.values[i]| ==>
        r.value.values[i][j] == g.value.values[i][j] * gradOutput
  {
    match g
    case None => None
    case Some(t) =>
      if t.dtype == Float16 then Some(t.(values := ScaleMatrix(t.values, gradOutput))) else g
  }

  /** The six gradients `backward` returns, one per `forward` argument: the
      saved feature and weight gradients, each scaled only if float16, then
      None for the four non-tensor arguments. */
  function Backward(ctx: Ctx, gradOutput: real): (r: Result<seq<Option<Grad>>, BackwardError>)
    ensures r.Ok? <==> Unpack(ctx).Ok?
    ensures r.Ok? ==> |r.value| == 6 && forall i :: 2 <= i < 6 ==> r.value[i].None?
    ensures r.Ok? ==> r.value[0] == ScaleIfHalf(Unpack(ctx).value.0, gradOutput)
                      && r.value[1] == ScaleIfHalf(Unpack(ctx).value.1, gradOutput)
  {
    match Unpack(ctx)
    case Err(e) => Err(e)
    case Ok((gIn, gW)) =>
      Ok([ScaleIfHalf(gIn, gradOutput), ScaleIfHalf(gW, gradOutput), None, None, None, None])
  }

  /** After a successful `forward`, `backward` always succeeds and always
      returns a feature gradient, because `forward` forces
      `in_feat.requires_grad`; a weight gradient comes back exactly when the
      weight requires one. Each is the gradient `forward` computed, scaled by
      `grad_output` through `ScaleIfHalf`, that is, exactly when its dtype is
      float16. */
  lemma BackwardAfterForward(inp: ForwardInput, tr: Transcendentals, padding: nat, gradOutput: real)
    requires Represents(inp) && ForwardReference(inp, tr, padding).Ok?
    ensures var out := ForwardReference(inp, tr, padding).value;
      var r := Backward(out.ctx, gradOutput);
      && r.Ok?
      && r.value[0].Some? && r.value[0].value.shape == inp.featShape
      && r.value[0].value.dtype == inp.featDType
      && (r.value[1].Some? <==> inp.weightRequiresGrad)
      && (inp.weightRequiresGrad ==> r.value[1].value.dtype == ComputeDType(inp))
    ensures Accepted(inp) &&
      var g := Grads(ReferenceRows(inp, tr, padding));
      var r := Backward(ForwardReference(inp, tr, padding).value.ctx, gradOutput);
      && r.Ok?
      && r.value[0] == ScaleIfHalf(Some(Grad(inp.featDType, inp.featShape,
                                             FeatureGrad(g, inp.weight, inp.featShape[2]))), gradOutput)
      && (inp.weightRequiresGrad ==>
            r.value[1] == ScaleIfHalf(Some(Grad(ComputeDType(inp), inp.weightShape,
                                                WeightGrad(g, inp.feat, |inp.weight|, inp.featShape[2]))), gradOutput))
  {
    var out := ForwardReference(inp, tr, padding).value;
    var g := Grads(ReferenceRows(inp, tr, padding));
    var gIn := Grad(inp.featDType, inp.featShape, FeatureGrad(g, inp.weight, inp.featShape[2]));
    var gW := if inp.weightRequiresGrad
              then Some(Grad(ComputeDType(inp), inp.weightShape,
                             WeightGrad(g, inp.feat, |inp.weight|, inp.featShape[2])))
              else None;
    assert out.ctx == Ctx(true, inp.weightRequiresGrad,
                          SaveForBackward(true, inp.weightRequiresGrad, Some(gIn), gW));
    UnpackSaved(true, inp.weightRequiresGrad, Some(gIn), gW);
  }

  /** The feature gradient `backward` returns after a successful `forward`,
      entry by entry: `forward`'s own gradient when the feature is not
      float16, and that gradient times `grad_output` when it is. */
  lemma BackwardFeatureGradValues(inp: ForwardInput, tr: Transcendentals, padding: nat, gradOutput: real)
    requires Represents(inp) && ForwardReference(inp, tr, padding).Ok?
    ensures Accepted(inp) &&
      var fg := FeatureGrad(Grads(ReferenceRows(inp, tr, padding)), inp.weight, inp.featShape[2]);
      var r := Backward(ForwardReference(inp, tr, padding).value.ctx, gradOutput);
      && r.Ok? && r.value[0].Some? && |r.value[0].value.values| == |fg|
      && (inp.featDType != Float16 ==> r.value[0].value.values == fg)
      && (inp.featDType == Float16 ==>
            forall i, j :: 0 <= i < |fg| && 0 <= j < |fg[i]| ==> r.value[0].value.values[i][j] == fg[i][j] * gradOutput)
  {
    BackwardAfterForward(inp, tr, padding, gradOutput);
  }

  /** The weight gradient `backward` returns when the weight requires one,
      entry by entry: `forward`'s own gradient unless the compute dtype is
      float16, and that gradient times `grad_output` when it is. */
  lemma BackwardWeightGradValues(inp: ForwardInput, tr: Transcendentals, padding: nat, gradOutput: real)
    requires Represents(inp) && ForwardReference(inp, tr, padding).Ok? && inp.weightRequiresGrad
    ensures Accepted(inp) &&
      var wg := WeightGrad(Grads(ReferenceRows(inp, tr, padding)), inp.feat, |inp.weight|, inp.featShape[2]);
      var r := Backward(ForwardReference(inp, tr, padding).value.ctx, gradOutput);
      && r.Ok? && r.value[1].Some? && |r.value[1].value.values| == |wg|
      && (ComputeDType(inp) != Float16 ==> r.value[1].value.values == wg)
      && (ComputeDType(inp) == Float16 ==>
            forall i, j :: 0 <= i < |wg| && 0 <= j < |wg[i]| ==> r.value[1].value.values[i][j] == wg[i][j] * gradOutput)
  {
    BackwardAfterForward(inp, tr, padding, gradOutput);
  }

  /** Unless the saved gradients are float16, the incoming gradient has no
      effect on what `backward` returns. */
  lemma BackwardIgnoresGradOutputUnlessHalf(ctx: Ctx, a: real, b: real)
    requires forall i :: 0 <= i < |ctx.saved| ==> ctx.saved[i].dtype != Float16
    ensures Backward(ctx, a) == Backward(ctx, b)
  {
  }
}
