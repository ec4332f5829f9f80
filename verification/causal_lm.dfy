/** `FusedCELConfig`, `patch_model`, and the choice of loss path in
    `LlamaForCausalLMFusedCEL.forward`: tensor-parallel logits, the fused
    loss, or the standard logits-then-`CrossEntropyLoss` path. */
module CausalLM {
  import opened Base
  import opened Numerics
  import opened FusedKernel
  import opened FusedForward
  import opened FusedLayer

  /** The four fields of the `FusedCELConfig` dataclass. */
  datatype FusedCELConfig = FusedCELConfig(useFusedCel: bool, nLoopIters: int, ignoreIndex: int, reduction: string)

  /** The dataclass constructor with its field defaults (lines 17-21). */
  function MakeFusedCELConfig(useFusedCel: bool := true, nLoopIters: int := 1, ignoreIndex: int := -100,
                              reduction: string := "mean"): (c: FusedCELConfig)
    ensures c.useFusedCel == useFusedCel && c.nLoopIters == nLoopIters
    ensures c.ignoreIndex == ignoreIndex && c.reduction == reduction
  {
    FusedCELConfig(useFusedCel, nLoopIters, ignoreIndex, reduction)
  }

  /** The dataclass defaults: the fused loss on, one chunk, `ignore_index`
      -100 and reduction "mean". */
  lemma MakeFusedCELConfigDefaults()
    ensures MakeFusedCELConfig() == FusedCELConfig(true, 1, -100, "mean")
  {
  }

  /** The parts of the model config the loss path reads. */
  datatype ModelConfig = ModelConfig(pretrainingTp: int, fusedCel: Option<FusedCELConfig>)

  /** `patch_model` (lines 444-459): store a `FusedCELConfig` under `fused_cel`,
      leaving the rest of the config alone. */
  function PatchModel(cfg: ModelConfig, useFusedCel: bool := true, nLoopIters: int := 1,
                      ignoreIndex: int := -100, reduction: string := "mean"): (r: ModelConfig)
    ensures r.pretrainingTp == cfg.pretrainingTp
    ensures r.fusedCel.Some?
    ensures r.fusedCel.value == MakeFusedCELConfig(useFusedCel, nLoopIters, ignoreIndex, reduction)
  {
    cfg.(fusedCel := Some(FusedCELConfig(useFusedCel, nLoopIters, ignoreIndex, reduction)))
  }

  /** With its defaults `patch_model` enables the fused loss with one chunk,
      `ignore_index` -100 and reduction "mean". */
  lemma PatchModelDefaults(cfg: ModelConfig)
    ensures PatchModel(cfg).fusedCel == Some(FusedCELConfig(true, 1, -100, "mean"))
  {
  }

  datatype LossPath = TensorParallel | Fused | Standard

  /** Lines 387-411: tensor parallelism first, then the fused loss if configured
      and enabled, else the standard path. */
  function SelectPath(cfg: ModelConfig): (p: LossPath)
    ensures p == Fused <==> cfg.pretrainingTp <= 1 && cfg.fusedCel.Some? && cfg.fusedCel.value.useFusedCel
    ensures p == TensorParallel <==> cfg.pretrainingTp > 1
  {
    if cfg.pretrainingTp > 1 then TensorParallel
    else if cfg.fusedCel.Some? && cfg.fusedCel.value.useFusedCel then Fused
    else Standard
  }

  datatype LMError =
    | LossUnbound                      // UnboundLocalError: the tensor-parallel path never binds `loss`
    | LabelsRequired                   // assert labels is not None
    | FusedLossError(e: ForwardError)  // raised inside the fused loss

  /** What the forward returns: the fused path's loss with `logits = None`, or
      the standard path, whose logits and `CrossEntropyLoss` are not modelled. */
  datatype LMOutput =
    | FusedOutput(loss: Loss, ctx: Ctx)
    | StandardOutput(labelsGiven: bool)

  /** The loss part of `LlamaForCausalLMFusedCEL.forward` given the backbone's
      hidden states; `labelsGiven` says whether `labels` is not None. */
  function CausalLMLoss(tr: Transcendentals, padding: nat, cfg: ModelConfig, a: LayerArgs, labelsGiven: bool)
    : (r: Result<LMOutput, LMError>)
    requires LayerWellFormed(a)
    ensures cfg.pretrainingTp > 1 ==> r == Err(LossUnbound)
    ensures SelectPath(cfg) == Fused && !labelsGiven ==> r == Err(LabelsRequired)
    ensures SelectPath(cfg) == Standard ==> r == Ok(StandardOutput(labelsGiven))
    ensures r.Ok? && r.value.FusedOutput? ==> SelectPath(cfg) == Fused && labelsGiven
  {
    match SelectPath(cfg)
    case TensorParallel => Err(LossUnbound)
    case Standard => Ok(StandardOutput(labelsGiven))
    case Fused =>
      if !labelsGiven then Err(LabelsRequired)
      else
        var c := cfg.fusedCel.value;
        match FusedCelLayer(tr, padding, a, c.nLoopIters, c.ignoreIndex, "mean")
        case Err(e) => Err(FusedLossError(e))
        case Ok(out) => Ok(FusedOutput(out.loss, out.ctx))
  }

  /** On the fused path the configured reduction is never read: the loss is
      the layer's with reduction "mean" (line 408). */
  lemma FusedPathAlwaysMeans(tr: Transcendentals, padding: nat, cfg: ModelConfig, a: LayerArgs,
                             reduction: string)
    requires LayerWellFormed(a) && cfg.fusedCel.Some?
    ensures var other := cfg.(fusedCel := Some(cfg.fusedCel.value.(reduction := reduction)));
      CausalLMLoss(tr, padding, other, a, true) == CausalLMLoss(tr, padding, cfg, a, true)
  {
  }

  /** The fused path's loss is `fused_cel_layer`'s with the configured chunk
      count and ignore index and reduction "mean". */
  lemma FusedPathLoss(tr: Transcendentals, padding: nat, cfg: ModelConfig, a: LayerArgs)
    requires LayerWellFormed(a) && SelectPath(cfg) == Fused
    ensures var c := cfg.fusedCel.value;
      var layer := FusedCelLayer(tr, padding, a, c.nLoopIters, c.ignoreIndex, "mean");
      && (layer.Ok? ==> CausalLMLoss(tr, padding, cfg, a, true) == Ok(FusedOutput(layer.value.loss, layer.value.ctx)))
      && (layer.Err? ==> CausalLMLoss(tr, padding, cfg, a, true) == Err(FusedLossError(layer.error)))
  {
  }

  /** A model patched with the defaults takes the fused path unless it uses
      tensor parallelism. */
  lemma PatchedModelUsesFusedLoss(cfg: ModelConfig)
    ensures SelectPath(PatchModel(cfg)) == (if cfg.pretrainingTp > 1 then TensorParallel else Fused)
  {
  }
}
