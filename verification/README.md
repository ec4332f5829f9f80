# Unsloth fused cross-entropy, loader dispatch and Mistral decisions in Dafny

This project models three parts of Unsloth, a library that speeds up fine-tuning of large
language models.

**The fused linear cross-entropy loss** (`unsloth/kernels/fused_cel.py`). It computes the
loss of a language-model head `logits = x @ W.T` without ever holding all the logits. The
tokens are split into `n_loop_iters` equal chunks. For each chunk the driver:

- projects the chunk to logits;
- runs a Triton kernel over every row (max-subtraction, log-sum-exp minus the target logit,
  `softmax - onehot` as the gradient, all divided by a global divisor, with `ignore_index`
  rows masked to zero);
- writes the chunk's slice of the feature gradient;
- accumulates the weight gradient.

The backward pass hands the saved gradients back, scaling only float16 ones by
`grad_output`. `fused_cel_layer` aligns hidden states with next-token labels in one of two
ways, depending on `n_loop_iters`. `FusedCELConfig`, `patch_model` and
`LlamaForCausalLMFusedCEL.forward` switch the fused loss on.

**The decision tables of `FastLanguageModel.from_pretrained`** (`unsloth/models/loader.py`):

- the `_get_dtype` normaliser;
- the version flags;
- the rule against a repository holding both `config.json` and `adapter_config.json`;
- the rule for when neither config loads;
- the `model_type` dispatch with its transformers-version gates.

**The Mistral decisions** (`unsloth/models/mistral.py`): sliding-window resolution, the
attention-path choice and its flash-attn window, the key/value length, and dtype defaulting.

## How the model is built

- Real numbers stand in for floats.
- `exp` and `log` are parameters (`Numerics.Transcendentals`). The only fact assumed about
  `exp` is that it is positive, so every theorem holds for every such pair.
- The kernel's `BLOCK_SIZE` is `n_classes + padding`. Every `padding` is allowed, and the
  padding lanes are loaded as `-inf` (`Numerics.ExtReal`).
- A per-token loss is `Finite(v)`, `PosInf` or `NaN` (`FusedKernel.Loss`). The kernel
  really produces `+inf` when a kept target lands in a padding lane. NaN is the value of a
  row with no classes; the row functions keep that case so they are total, but `forward`
  rejects a weight with no rows (`EmptyVocabulary`) before any kernel runs.
- Python exceptions are `Err` values of `Base.Result`.
- A torch dtype other than float32, float16 and bfloat16 is `OtherDType(name)`. Only the
  floating-point and complex names in `FusedForward.OtherGradDTypes` may require a gradient.
- Hub, filesystem and device queries are inputs.

Modules follow the source:

| module | source |
|---|---|
| `FusedKernel` | the Triton kernel |
| `FusedForward` | the driver's validation, divisor, chunk loop and saved context |
| `FusedBackward` | backward |
| `FusedLayer` | `fused_cel_linear` and `fused_cel_layer` |
| `CausalLM` | config, `patch_model` and the loss branch of the causal-LM forward |
| `Loader` | `loader.py` |
| `Mistral` | `mistral.py` |
| `Numerics`, `Linear`, `Base` | shared vocabulary |

The central theorems:

- **Kernel correctness.** `FusedKernel.KernelIsCrossEntropy` shows that the padded kernel
  equals a textbook row cross-entropy over the true classes only.
- **Chunk invariance.** `FusedForward.RunChunks` and `FusedForward.Forward` show that for
  every valid `n_loop_iters` the chunked driver returns exactly the one-pass result:
  - the loss buffer;
  - every row of `grad_in_feat`;
  - the accumulated `grad_proj_weight`.
- **Divisor semantics.** `FusedForward.ForwardLossIsReduction` shows the returned loss is
  the requested reduction of the undivided row losses.
- **Layout equivalence.** `FusedLayer.ShiftConventionsAgree` shows that the two label-shift
  layouts of `fused_cel_layer` give the same loss.

Behaviours of the code worth knowing:

- **Backward scaling.** Only float16 gradients are scaled by `grad_output`; bfloat16 and
  float32 pass through unscaled (`fused_cel.py:263-270`).
- **Feature gradient.** `in_feat.requires_grad_(True)` (line 124) means a feature gradient
  is always produced and saved, whatever the caller asked for. The same call raises
  RuntimeError for a feature whose dtype is neither floating-point nor complex.
- **Feature rank.** A feature that is not 3-D fails at the shape unpacking of line 117,
  before any rank assertion.
- **Hidden-size mismatch.** A mismatch between feature and weight is not checked up front.
  It surfaces as the matmul's error in the first chunk.
- **Empty vocabulary.** A weight with no rows is not checked up front either.
  `BLOCK_SIZE = triton.next_power_of_2(0)` is 0 (line 147), and the kernel's
  `tl.arange(0, BLOCK_SIZE)` (line 55) does not compile, so `forward` fails at the first
  kernel launch, even with no tokens.

## Model

| member | source | states |
|---|---|---|
| `FusedKernel.Load` | unsloth/kernels/fused_cel.py:60-62 | The loaded block has `n_classes + padding` lanes: the row's values, then `-inf` in every padding lane. |
| `FusedKernel.TargetLogitSelects` | unsloth/kernels/fused_cel.py:75 | The masked sum `where(targ == col, logit, 0)` is the target lane's shifted logit when the target is a lane, and 0 for any other target (negative, or beyond the block). |
| `FusedKernel.KernelRow` | unsloth/kernels/fused_cel.py:31-86 | One kernel row stores exactly `n_classes` gradient columns. A row whose target is `ignore_index` stores loss 0 and an all-zero gradient. |
| `FusedKernel.MaxOfPaddedRow` | unsloth/kernels/fused_cel.py:60-69 | The `-inf` padding never wins the max: the padded block's max is the row's own max. |
| `FusedKernel.PaddedExps` | unsloth/kernels/fused_cel.py:60-71 | Padding lanes add `exp(-inf) = 0`: the block's sum of exponentials is the row's own, and the first `n_classes` lanes hold the row's exponentials. |
| `FusedKernel.PaddedTargetLoss` | unsloth/kernels/fused_cel.py:74-76 | On the padded block, `lse - target logit` is the reference undivided loss: a true-class target reads its own logit, a padding-lane target makes the loss `+inf`, any other target leaves `lse`. |
| `FusedKernel.KernelIsCrossEntropy` | unsloth/kernels/fused_cel.py:60-86 | For every row, target, divisor and padding, the padded kernel's loss and gradient equal the row cross-entropy over the true classes only (`CrossEntropyRow`). |
| `FusedKernel.KernelShiftInvariant` | unsloth/kernels/fused_cel.py:67-86 | Adding one constant to every logit of a row changes neither its loss nor its gradient. |
| `FusedKernel.CrossEntropyShiftInvariant` | unsloth/kernels/fused_cel.py:67-77 | The reference row cross-entropy is invariant under adding a constant to every logit. |
| `FusedKernel.MaxShift` | unsloth/kernels/fused_cel.py:67-69 | Shifting every logit by `k` shifts the row max by `k`. |
| `FusedKernel.RowExpsShift` | unsloth/kernels/fused_cel.py:67-70 | Shifting the row and its max by the same constant leaves the max-subtracted exponentials unchanged. |
| `FusedKernel.IgnoredRowIsMasked` | unsloth/kernels/fused_cel.py:78-85 | A row whose target is `ignore_index` yields loss 0 and zero gradient whatever its logits are; two such rows of equal width give the same output. |
| `FusedKernel.KernelDividesLoss` | unsloth/kernels/fused_cel.py:76-78 | A row's loss under divisor `d` is its loss under divisor 1 divided by `d`. |
| `FusedKernel.KernelGradientSumsToZero` | unsloth/kernels/fused_cel.py:82-84 | For a target among the true classes, the gradient row `(softmax - onehot) / d` sums to zero and the loss is finite. |
| `FusedKernel.SoftmaxSumsToOne` | unsloth/kernels/fused_cel.py:83 | `exp_logit_row / sum_exp_logit_row` sums to 1. |
| `FusedForward.Validate` | unsloth/kernels/fused_cel.py:117-147 | Forward fails exactly when an input requirement is violated, including a feature dtype that cannot require a gradient (line 124), the hidden-size match the first matmul enforces and the at-least-one-class block size the kernel needs. The checks run in source order, so a 3-D, well-shaped call with `n_loop_iters <= 0` is reported as that, not as a modulo failure. |
| `FusedForward.ViewRankAssertionsNeverFire` | unsloth/kernels/fused_cel.py:117-136 | After `view(-1, hidden)` and `view(-1)` the rank assertions on the feature and the labels can never fail; only the weight's rank can be wrong. |
| `FusedForward.CountKept` | unsloth/kernels/fused_cel.py:169 | The count of targets that are not `ignore_index` is at most the token count, and it is zero exactly when every target is ignored. |
| `FusedForward.Divisor` | unsloth/kernels/fused_cel.py:168-172 | The divisor is non-negative. It is at least 1 whenever some target is kept, so the unmasked division is always defined. It is 0 only when every target is ignored. |
| `FusedForward.SaveForBackward` | unsloth/kernels/fused_cel.py:240-247 | The saved tuple holds one gradient per flag that is set. |
| `FusedForward.Assemble` | unsloth/kernels/fused_cel.py:232-247 | The loss is the sum of the per-token buffer. The saved context holds the feature gradient (feature dtype, original 3-D shape) and, exactly when the weight requires grad, the weight gradient in the compute dtype. |
| `FusedForward.AssembleIgnoresUnusedWeightGrad` | unsloth/kernels/fused_cel.py:157-160 | Without a weight gradient the weight buffer does not influence the result. |
| `FusedForward.ForwardReference` | unsloth/kernels/fused_cel.py:105-249 | The one-pass forward fails exactly on rejected inputs, with the error `Validate` reports. On success `in_feat` always requires grad (forced at line 124) and the weight flag is passed through. |
| `FusedForward.ChunksPartition` | unsloth/kernels/fused_cel.py:177-184 | With `c = n_tokens / n_loop_iters`, the chunks `[i*c, (i+1)*c)` partition `[0, n_tokens)`: every token lies in chunk `t / c` and in no other. |
| `FusedForward.ChunkStartIsProduct` | unsloth/kernels/fused_cel.py:183 | The chunk start counted chunk by chunk is `i * loop_chunk_size`. |
| `FusedForward.ChunkInBounds` | unsloth/kernels/fused_cel.py:182-184 | Every chunk `i < k` ends no later than the end of the last chunk. |
| `FusedForward.ChunkTotal` | unsloth/kernels/fused_cel.py:142-144 | Because `n_tokens % n_loop_iters == 0`, the `k` chunks end exactly at `n_tokens`. |
| `FusedForward.KernelRowsSlice` | unsloth/kernels/fused_cel.py:182-215 | Projecting and running the kernel on tokens `a..b` gives rows `a..b` of the whole batch's kernel output: each row depends only on its own features, target and the global divisor. |
| `FusedForward.SplicePrefix` | unsloth/kernels/fused_cel.py:193-222 | Writing the reference's slice into a buffer that already agrees below the slice extends the agreement to the slice's end. |
| `FusedForward.WeightGradPrefix` | unsloth/kernels/fused_cel.py:224-230 | Accumulating a chunk's `dLogits.T @ x` onto the weight gradient of the earlier tokens gives the weight gradient of all tokens so far. |
| `FusedForward.ChunkUpdateAgrees` | unsloth/kernels/fused_cel.py:182-230 | One chunk iteration over buffers that hold the one-pass result below its start leaves them holding it up to its end: losses, `grad_in_feat` rows and `grad_proj_weight`. |
| `FusedForward.ChunkStep` | unsloth/kernels/fused_cel.py:183-230 | One loop iteration (chunk logits, kernel, loss and `grad_in_feat` slices, `addmm` into `grad_proj_weight`) over buffers holding the one-pass result for the tokens before chunk `i` leaves them holding it through the end of chunk `i`. |
| `FusedForward.ChunkLoop` | unsloth/kernels/fused_cel.py:177-230 | Starting from the zeroed buffers, the loop over `k` chunks leaves the losses, `grad_in_feat` rows and (when wanted) `grad_proj_weight` equal to the one-pass values for every token up to the last chunk's end. |
| `FusedForward.RunChunks` | unsloth/kernels/fused_cel.py:157-230 | Chunk invariance: for every `n_loop_iters > 0` dividing the token count, the zero-initialised buffers end holding exactly the single-pass values. This covers the per-token losses, `grad_in_feat` and the accumulated `grad_proj_weight`. |
| `FusedForward.Forward` | unsloth/kernels/fused_cel.py:105-249 | The chunked forward returns the one-pass reference result, success or error, whatever `n_loop_iters` is. |
| `FusedForward.ForwardLossIsReduction` | unsloth/kernels/fused_cel.py:168-234 | The returned loss is the sum of undivided row losses for "sum". For "mean" it is that sum divided by the kept-token count, and 0 when every target is ignored (the masked branch wins over the zero divisor). |
| `FusedForward.IgnoredTokenHasZeroFeatureGrad` | unsloth/kernels/fused_cel.py:219-222 | A token whose target is `ignore_index` receives an all-zero row of `grad_in_feat`. |
| `Linear.FeatureGradSlice` | unsloth/kernels/fused_cel.py:219-222 | Rows `a..b` of `dLogits @ W` are `dLogits[a..b] @ W`. |
| `Linear.WeightGradSplit` | unsloth/kernels/fused_cel.py:224-230 | `addmm` accumulation is exact: the weight gradients of two consecutive token ranges add up to that of their union. |
| `Linear.WeightGradEmpty` | unsloth/kernels/fused_cel.py:157-158 | The weight gradient over no tokens is the zero matrix the buffer is initialised with. |
| `FusedBackward.Unpack` | unsloth/kernels/fused_cel.py:254-260 | A gradient is unpacked for each flag that is set, and only for those. |
| `FusedBackward.UnpackSaved` | unsloth/kernels/fused_cel.py:240-260 | Unpacking what forward saved under the same flags returns the saved gradients, for all four flag combinations. |
| `FusedBackward.ScaleIfHalf` | unsloth/kernels/fused_cel.py:262-270 | Only a float16 gradient is multiplied by `grad_output`, entrywise. Any other dtype comes back unchanged, with dtype and shape always kept. |
| `FusedBackward.Backward` | unsloth/kernels/fused_cel.py:251-272 | Backward fails exactly when the saved tuple does not unpack. Otherwise it returns six positions: the unpacked feature and weight gradients, each passed through the float16-only scaling, then four None. |
| `FusedBackward.BackwardAfterForward` | unsloth/kernels/fused_cel.py:237-272 | After a successful forward, backward succeeds. It always returns a feature gradient in the feature dtype and original shape, and returns a weight gradient exactly when the weight requires one. Each returned gradient is the one forward computed for the whole batch, passed through the float16-only scaling. |
| `FusedBackward.BackwardFeatureGradValues` | unsloth/kernels/fused_cel.py:237-272 | After a successful forward, the returned feature gradient equals forward's `grad_in_feat` when the feature is not float16, and is that gradient times `grad_output`, entrywise, when it is. |
| `FusedBackward.BackwardWeightGradValues` | unsloth/kernels/fused_cel.py:237-272 | When the weight requires a gradient, the returned weight gradient equals forward's `grad_proj_weight` unless the compute dtype is float16, and is that gradient times `grad_output`, entrywise, when it is. |
| `FusedBackward.BackwardIgnoresGradOutputUnlessHalf` | unsloth/kernels/fused_cel.py:262-270 | When no saved gradient is float16, `grad_output` has no effect on what backward returns. |
| `FusedLayer.DropFirst` | unsloth/kernels/fused_cel.py:302 | `labels[..., 1:]`: one element shorter, entry `i` is the old entry `i + 1`. |
| `FusedLayer.DropLast` | unsloth/kernels/fused_cel.py:325 | `hidden_states[..., :-1, :]`: one element shorter, same leading entries. |
| `FusedLayer.LinearInputRepresents` | unsloth/kernels/fused_cel.py:275-286 | The tensors `fused_cel_linear` hands to forward have values consistent with their shapes. |
| `FusedLayer.PaddedPairs` | unsloth/kernels/fused_cel.py:301-312 | In the padded layout, position `i` is paired with label `i + 1`, and the last position with `ignore_index`. |
| `FusedLayer.TrimmedPairs` | unsloth/kernels/fused_cel.py:322-327 | In the trimmed layout, position `i` is paired with label `i + 1`, one position shorter. |
| `FusedLayer.PaddingAddsOnlyIgnoredPair` | unsloth/kernels/fused_cel.py:301-327 | Per sequence, both layouts keep exactly the same (feature, label) pairs. |
| `FusedLayer.LayoutsKeepSamePairs` | unsloth/kernels/fused_cel.py:301-327 | Over the flattened batch both layouts have equal-length features and labels, and their non-ignored pairs are the same `(h[b][i], labels[b][i+1])`, in the same order. |
| `FusedLayer.CountKeptIsKeptLength` | unsloth/kernels/fused_cel.py:169 | The divisor's kept-token count is the number of kept pairs. |
| `FusedLayer.SumSkipsIgnored` | unsloth/kernels/fused_cel.py:78-79 | Ignored pairs add nothing to the summed loss. |
| `FusedLayer.ReferenceLossOfPairs` | unsloth/kernels/fused_cel.py:168-234 | Forward's loss is the sum of each (feature, label) pair's kernel loss under the global divisor. |
| `FusedLayer.LossOfKeptPairs` | unsloth/kernels/fused_cel.py:168-234 | Forward's loss depends only on the kept pairs and the reduction. |
| `FusedLayer.PaddedLayer` | unsloth/kernels/fused_cel.py:301-321 | With `n_loop_iters > 1` the layer is forward on the full hidden states and the shifted, `ignore_index`-padded labels. |
| `FusedLayer.TrimmedLayer` | unsloth/kernels/fused_cel.py:322-337 | With `n_loop_iters <= 1` the layer is forward on the hidden states without their last position and the labels without their first. |
| `FusedLayer.ShiftConventionsAgree` | unsloth/kernels/fused_cel.py:301-337 | For hidden states and labels of the same `(bs, seqlen)` shape, a successful padded-layout call implies the trimmed-layout call (`n_loop_iters = 1`) succeeds with the same loss. |
| `FusedLayer.LayoutsSameLoss` | unsloth/kernels/fused_cel.py:301-337 | If forward accepts the padded layout, it accepts the trimmed one and returns the same loss. |
| `FusedLayer.EmptyLayoutsAgree` | unsloth/kernels/fused_cel.py:301-337 | With zero positions per sequence, an accepted padded call forces an empty batch, and the trimmed call sees the same (empty) tensors. |
| `CausalLM.MakeFusedCELConfigDefaults` | unsloth/kernels/fused_cel.py:16-21 | The dataclass defaults are `use_fused_cel=True`, `n_loop_iters=1`, `ignore_index=-100`, `reduction="mean"`. |
| `CausalLM.PatchModel` | unsloth/kernels/fused_cel.py:444-459 | `patch_model` stores the config built from its arguments under `fused_cel` and leaves `pretraining_tp` alone. |
| `CausalLM.PatchModelDefaults` | unsloth/kernels/fused_cel.py:444-459 | With its defaults the stored config is `use_fused_cel=True`, `n_loop_iters=1`, `ignore_index=-100`, `reduction="mean"`. |
| `CausalLM.SelectPath` | unsloth/kernels/fused_cel.py:387-413 | The tensor-parallel branch is taken exactly when `pretraining_tp > 1`. The fused branch is taken exactly when `pretraining_tp <= 1` and a `fused_cel` config with `use_fused_cel` is present. |
| `CausalLM.CausalLMLoss` | unsloth/kernels/fused_cel.py:386-433 | The tensor-parallel branch fails (`loss` is never bound). The fused branch without labels fails its assertion. A fused loss is returned only on the fused branch with labels. |
| `CausalLM.FusedPathAlwaysMeans` | unsloth/kernels/fused_cel.py:402-409 | The configured reduction has no effect on the result. |
| `CausalLM.FusedPathLoss` | unsloth/kernels/fused_cel.py:396-411 | The fused branch returns `fused_cel_layer`'s loss with the configured chunk count and ignore index and `reduction="mean"`, or its error. |
| `CausalLM.PatchedModelUsesFusedLoss` | unsloth/kernels/fused_cel.py:387-396 | A model patched with the defaults takes the fused branch unless it uses tensor parallelism. |
| `Loader.CompareAntisymmetric` | unsloth/models/loader.py:36-40 | Release comparison is antisymmetric. |
| `Loader.CompareTransitive` | unsloth/models/loader.py:36-40 | Release comparison is transitive, strictly so when either step is strict. |
| `Loader.TrailingZeroIgnored` | unsloth/models/loader.py:36-40 | A trailing `.0` does not change a release (`4.45 == 4.45.0`). |
| `Loader.FlagsMonotone` | unsloth/models/loader.py:36-40 | LLAMA32 implies LLAMA31, which implies GEMMA2, then GEMMA, then FOURBIT. |
| `Loader.Llama32IsStrict` | unsloth/models/loader.py:39-40 | LLAMA32 uses a strict comparison: 4.45 and 4.45.0 lack it, 4.45.1 has it, and 4.45 already has LLAMA31. |
| `Loader.GetDtype` | unsloth/models/loader.py:48-61 | For a hashable argument, `_get_dtype` only ever returns None or one of the three float dtypes. |
| `Loader.GetDtypeRecognises` | unsloth/models/loader.py:49-58 | Each of "float32", "float16", "bfloat16" and the matching torch dtype maps to that dtype. |
| `Loader.GetDtypeRejects` | unsloth/models/loader.py:57-61 | None and every unrecognised hashable argument map to None. |
| `Loader.GetDtypeIdempotent` | unsloth/models/loader.py:48-61 | Normalising an already normalised dtype changes nothing. |
| `Loader.ChooseConfig` | unsloth/models/loader.py:122-171 | When both configs exist the load fails. Otherwise, for an adapter, the base model's config is chosen when it loads and its error is raised when it does not; without an adapter the model's own config is chosen whenever it loads. No other config is ever chosen. |
| `Loader.ConflictRule` | unsloth/models/loader.py:122-147 | Before 4.45.1 the both-configs error happens exactly when both configs load. From then on, for a hub repository, it happens exactly when at least two listed names are `config.json` or `adapter_config.json`. |
| `Loader.NeitherConfigRule` | unsloth/models/loader.py:149-159 | When neither config loads, the first non-empty message decides: ImportError if it mentions rope_scaling and LLAMA31 is missing, else RuntimeError with that message. |
| `Loader.ScalingType` | unsloth/models/loader.py:179-183 | The rope scaling type is the "type" key when set, else the "rope_type" key, and none without `rope_scaling`. |
| `Loader.Dispatch` | unsloth/models/loader.py:176-239 | Whenever dispatch succeeds, the family's own `model_type` is the config's. It raises the Llama 3.1 ImportError exactly for a "llama" config with "llama3" scaling below 4.43.2, the Gemma one exactly for "gemma" without SUPPORTS_GEMMA, and the Gemma2 one exactly for "gemma2" without SUPPORTS_GEMMA2. |
| `Loader.DispatchGates` | unsloth/models/loader.py:178-213 | For one of the six known `model_type`s, dispatch fails exactly when that family's own version gate is missing, and never with NotImplementedError. |
| `Loader.DispatchRoundTrip` | unsloth/models/loader.py:178-233 | Each of llama, mistral, gemma, gemma2, qwen2 and cohere dispatches to its Fast class once the version gates pass (Gemma, Gemma2, and Llama 3.1 scaling). |
| `Loader.DispatchUnknown` | unsloth/models/loader.py:234-239 | Dispatch raises NotImplementedError exactly for a `model_type` outside the six known ones. |
| `Loader.RecentTransformersOnlyRejectUnknown` | unsloth/models/loader.py:186-213 | With 4.43.2 or later no version gate fires, so the only dispatch failure is an unknown `model_type`. |
| `Loader.LoadDecision` | unsloth/models/loader.py:122-255 | The loader passes on `_get_dtype(dtype)`, and it fails whenever both configs exist. It goes ahead exactly when a config is chosen and that config's `model_type` passes dispatch. |
| `Loader.AdapterUsesBaseModelType` | unsloth/models/loader.py:162-176 | For an adapter, the family is chosen by the base model's config, which must load. |
| `Loader.PlainModelUsesOwnModelType` | unsloth/models/loader.py:143-176 | Without an adapter, the family is chosen by the model's own config, which must load. |
| `Loader.PlainModelLoads` | unsloth/models/loader.py:122-255 | Without conflicting configs or an adapter, a model whose own config loads and passes dispatch is loaded with the dispatched family and `_get_dtype(dtype)`. |
| `Loader.AdapterLoads` | unsloth/models/loader.py:122-255 | Without conflicting configs, an adapter whose base config loads and passes dispatch is loaded with the dispatched family and `_get_dtype(dtype)`. |
| `Mistral.ResolveSlidingWindow` | unsloth/models/mistral.py:41-46 | The window is the configured value when present and positive, else `q_len`. |
| `Mistral.KvSeqLen` | unsloth/models/mistral.py:58-60 | `kv_seq_len` is `q_len`, plus the cached length when a cache is given. |
| `Mistral.ChooseAttention` | unsloth/models/mistral.py:52 | Attention proceeds exactly when `n_kv_heads * n_groups == n_heads`. |
| `Mistral.AttentionPathChoice` | unsloth/models/mistral.py:79-115 | Xformers is chosen exactly when `q_len <= sw` and flash-attn is missing. Flash-attn is chosen exactly when it is installed. SDPA is chosen exactly when `q_len > sw` and flash-attn is missing. |
| `Mistral.FlashWindow` | unsloth/models/mistral.py:113 | With a positive configured window `w`, the flash-attn window is `(-1, -1)` when `q_len <= w`, else `(w, w)`. Without a positive configured window it is always `(-1, -1)`. |
| `Mistral.DefaultDtype` | unsloth/models/mistral.py:174-180 | None becomes bfloat16 if supported, else float16. Unsupported bfloat16 becomes float16. float16 and float32 are kept. Any other dtype fails the assertion. A bfloat16 result implies device support. |
| `Mistral.LoaderDtypeAlwaysAccepted` | unsloth/models/mistral.py:174-180 | Whatever `_get_dtype` produced, the Mistral dtype assertion holds. |
| `Mistral.BindKeywords` | unsloth/models/mistral.py:151-158 | Binding keywords to a signature without `**kwargs` succeeds exactly when every keyword is a parameter. Otherwise it fails naming a keyword that is not one. |
| `Mistral.BindStopsAtFirstMissing` | unsloth/models/mistral.py:151-158 | Binding fails on the first keyword that is not a parameter. |
| `Mistral.LoaderCallRejectedAsWritten` | unsloth/models/loader.py:252-265 | Against the signature as written, the loader's keywords fail to bind at "rope_scaling". |
| `Mistral.LoaderCallBinds` | unsloth/models/loader.py:252-265 | Against the signature extended by the loader's extra keywords, every keyword binds. |
| `Mistral.MistralFromPretrained` | unsloth/models/mistral.py:174-180 | A Mistral load dispatched by the loader always succeeds under the corrected signature. Its dtype is bfloat16 only on a device that supports it, and a non-bfloat16 dtype from the loader is kept. |

## Left out

- Floating point: rounding, the float32 upcast of logits, dtype casts and autocast numerics are not modelled. Values are reals, and `exp`/`log` are parameters, with `exp` assumed positive.
- Triton launch details are not modelled: the grid, `num_warps`, strides, pointer arithmetic, and `triton.next_power_of_2`. `BLOCK_SIZE` is `n_classes + padding` for an arbitrary `padding`, so every block size at least `n_classes` is covered.
- `triton.cdiv`: after the divisibility assertion it equals `n_tokens / n_loop_iters`, which is what the model uses.
- torch `matmul`/`addmm` `out=` aliasing and the reuse of `logits_chunk_cast` are modelled as fresh real products and elementwise accumulation.
- Row-parallel GPU execution is modelled as a map over rows.
- `grad_in_feat` is always allocated and written: `in_feat.requires_grad_(True)` at line 124 makes the `requires_grad` tests at 162 and 219 always true.
- A feature with `hidden_dim == 0`: `view(-1, 0)` raises, and the model reports it as an error without modelling torch's message.
- `FusedLayer.FusedCelLayer` assumes 3-D hidden states and 2-D labels. Rank errors raised inside the slicing of `fused_cel_layer` are not modelled.
- `CausalLM.CausalLMLoss` does not model:
  - the backbone `self.model(...)` call;
  - the standard `CrossEntropyLoss` path's numbers;
  - `return_dict` packaging;
  - the warning log.

  The standard path is only recorded as taken.
- `FusedCELConfig`'s `dict` mirror (`__post_init__`) is not modelled; only the four fields are.
- In `loader.py` these are not modelled:
  - hub, network and filesystem calls (AutoConfig, PeftConfig, HfFileSystem, `os.path` checks): their outcomes are inputs;
  - `get_model_name`, progress bars, tokenizer-name detection, vocabulary resizing and PEFT patching after the call;
  - the Gemma2 flash-attn advice prints;
  - `FastVisionModel` and the second `from_pretrained`.
- `Loader.GetDtype` covers hashable arguments only: an unhashable `dtype` (a list, say) makes the `in` test of line 58 raise TypeError, which is not modelled. The message printed for an unrecognised argument (line 60) is console output and is left out.
- `Loader.Compare` models release numbers as dotted integers only; pre-, post- and dev-release segments of `packaging.version.Version` are not modelled.
- `Loader.ModelConfig` sees `rope_scaling` only through its "type" and "rope_type" keys; a `rope_scaling` that is not a dict is not modelled.
- In `mistral.py` these are not modelled:
  - RoPE;
  - the xformers, flash-attn and SDPA arithmetic;
  - the KV-cache tensors;
  - CUDA device queries (bfloat16 support is an input);
  - model and tokenizer loading;
  - the statistics print and the pad-token handling.
- `Mistral.MistralFromPretrained` models only the keyword binding and the dtype decision of a dispatched Mistral load, not the loading itself.
- The float16-only scaling in backward (lines 263-270) is kept as written. For bfloat16 and float32 gradients, `grad_output` is ignored.

## Findings

| source | as written | input that shows it | evidently intended | confidence | as-written member | corrected member |
|---|---|---|---|---|---|---|
| unsloth/models/loader.py:252-265 with unsloth/models/mistral.py:151-158 | The loader calls the chosen family's `from_pretrained` with `rope_scaling`, `fix_tokenizer`, `model_patcher`, `tokenizer_name`, `trust_remote_code` and `revision`. `FastMistralModel.from_pretrained` declares only six parameters and no `**kwargs`. | Any model whose `model_type` is "mistral": the call raises TypeError at the keyword `rope_scaling`. | The Mistral signature accepts the keywords the loader passes, as the other families' signatures do. | not executed | `Mistral.LoaderCallRejectedAsWritten` | `Mistral.LoaderCallBinds` |
