/** The decisions of the Mistral patch: the sliding window and attention path
    of `MistralAttention_fast_forward`, and the dtype defaulting and call
    signature of `FastMistralModel.from_pretrained`. */
module Mistral {
  import opened Base
  import Loader

  /** `config.sliding_window`: absent (None), present but None (Some(None)), or a value. */
  type SlidingWindowAttr = Option<Option<int>>

  /** Lines 41-46: the configured window when it is set and positive, else `q_len`. */
  function ResolveSlidingWindow(attr: SlidingWindowAttr, qLen: nat): (sw: int)
    ensures sw > 0 || sw == qLen
    ensures (attr.Some? && attr.value.Some? && attr.value.value > 0) ==> sw == attr.value.value
    ensures !(attr.Some? && attr.value.Some? && attr.value.value > 0) ==> sw == qLen
  {
    if attr.Some? then
      var configured := attr.value;
      if configured.None? || configured.value <= 0 then qLen else configured.value
    else qLen
  }

  datatype AttentionPath = Xformers | Flash(window: (int, int)) | Sdpa

  datatype AttentionError = GroupedQueryMismatch  // assert n_kv_heads * n_groups == n_heads

  /** The head counts and lengths one attention call sees. */
  datatype AttentionCall = AttentionCall(
    qLen: nat, nHeads: nat, nGroups: nat, nKvHeads: nat,
    pastLen: Option<nat>, slidingWindow: SlidingWindowAttr, hasFlashAttention: bool)

  /** Lines 58-60: the key/value length includes the cached prefix. */
  function KvSeqLen(c: AttentionCall): (n: nat)
    ensures c.pastLen.None? ==> n == c.qLen
    ensures c.pastLen.Some? ==> n == c.qLen + c.pastLen.value
  {
    match c.pastLen
    case None => c.qLen
    case Some(p) => c.qLen + p
  }

  /** Lines 41-115 without the tensor arithmetic: the grouped-query check,
      then xformers when the sequence fits the window and flash-attn is
      missing, flash-attn whenever it is installed, SDPA otherwise. */
  function ChooseAttention(c: AttentionCall): (r: Result<AttentionPath, AttentionError>)
    ensures r.Ok? <==> c.nKvHeads * c.nGroups == c.nHeads
  {
    if c.nKvHeads * c.nGroups != c.nHeads then Err(GroupedQueryMismatch)
    else
      var sw := ResolveSlidingWindow(c.slidingWindow, c.qLen);
      if c.qLen <= sw && !c.hasFlashAttention then Ok(Xformers)
      else if c.hasFlashAttention then Ok(Flash(if c.qLen <= sw then (-1, -1) else (sw, sw)))
      else Ok(Sdpa)
  }

  /** Which path is taken, as three if-and-only-ifs. */
  lemma AttentionPathChoice(c: AttentionCall)
    requires c.nKvHeads * c.nGroups == c.nHeads
    ensures var sw := ResolveSlidingWindow(c.slidingWindow, c.qLen);
      && (ChooseAttention(c) == Ok(Xformers) <==> c.qLen <= sw && !c.hasFlashAttention)
      && (ChooseAttention(c).value.Flash? <==> c.hasFlashAttention)
      && (ChooseAttention(c) == Ok(Sdpa) <==> c.qLen > sw && !c.hasFlashAttention)
  {
  }

  /** Flash-attn gets an unbounded window when the sequence fits the
      configured positive window, else that window on both sides; without a
      positive configured window the sequence always fits. */
  lemma FlashWindow(c: AttentionCall)
    requires c.nKvHeads * c.nGroups == c.nHeads && c.hasFlashAttention
    ensures c.slidingWindow.Some? && c.slidingWindow.value.Some? && c.slidingWindow.value.value > 0 ==>
      var w := c.slidingWindow.value.value;
      && (c.qLen <= w ==> ChooseAttention(c) == Ok(Flash((-1, -1))))
      && (c.qLen > w ==> ChooseAttention(c) == Ok(Flash((w, w))))
    ensures !(c.slidingWindow.Some? && c.slidingWindow.value.Some? && c.slidingWindow.value.value > 0)
            ==> ChooseAttention(c) == Ok(Flash((-1, -1)))
  {
  }

  datatype DtypeError = UnsupportedDtype  // assert dtype in (float16, bfloat16, float32)

  /** Lines 174-180: None becomes bfloat16 if the device supports it, else
      float16; bfloat16 on a device without it becomes float16; the result
      must be one of the three float types. */
  function DefaultDtype(dtype: Option<DType>, supportsBf16: bool): (r: Result<DType, DtypeError>)
    ensures r.Ok? ==> r.value == Float16 || r.value == BFloat16 || r.value == Float32
    ensures r.Ok? && r.value == BFloat16 ==> supportsBf16
    ensures dtype.None? ==> r == Ok(if supportsBf16 then BFloat16 else Float16)
    ensures dtype.Some? && (dtype.value == Float16 || dtype.value == Float32) ==> r == Ok(dtype.value)
    ensures dtype == Some(BFloat16) ==> r == Ok(if supportsBf16 then BFloat16 else Float16)
    ensures dtype.Some? && dtype.value.OtherDType? ==> r == Err(UnsupportedDtype)
  {
    var d := if dtype.None? then (if supportsBf16 then BFloat16 else Float16)
             else if dtype.value == BFloat16 && !supportsBf16 then Float16
             else dtype.value;
    if d == Float16 || d == BFloat16 || d == Float32 then Ok(d) else Err(UnsupportedDtype)
  }

  /** Whatever the loader's `_get_dtype` produced, the dtype assertion holds. */
  lemma LoaderDtypeAlwaysAccepted(arg: Loader.DTypeArg, supportsBf16: bool)
    ensures DefaultDtype(Loader.GetDtype(arg), supportsBf16).Ok?
  {
  }

  // ---------------------------------------------------------------------
  // The call from the loader

  /** Binding keyword arguments to a signature without `**kwargs`: the first
      keyword that is not a parameter raises TypeError. */
  function BindKeywords(params: seq<string>, keywords: seq<string>): (r: Result<(), string>)
    ensures r.Ok? <==> forall i :: 0 <= i < |keywords| ==> keywords[i] in params
    ensures r.Err? ==> r.error in keywords && r.error !in params
  {
    if |keywords| == 0 then Ok(())
    else if keywords[0] !in params then Err(keywords[0])
    else
      var rest := BindKeywords(params, keywords[1..]);
      assert forall i :: 1 <= i < |keywords| ==> keywords[i] == keywords[1..][i - 1];
      rest
  }

  /** loader.py lines 252-265: the keywords `FastLanguageModel.from_pretrained`
      passes to the chosen family's `from_pretrained`. */
  const LoaderKeywords: seq<string> := [
    "model_name", "max_seq_length", "dtype", "load_in_4bit", "token", "device_map",
    "rope_scaling", "fix_tokenizer", "model_patcher", "tokenizer_name",
    "trust_remote_code", "revision"]

  /** Lines 151-158: the parameters `FastMistralModel.from_pretrained` declares. */
  const MistralParamsAsWritten: seq<string> := [
    "model_name", "max_seq_length", "dtype", "load_in_4bit", "token", "device_map"]

  /** Binding stops at the first keyword that is not a parameter. */
  lemma {:induction false} BindStopsAtFirstMissing(params: seq<string>, keywords: seq<string>, j: nat)
    requires j < |keywords| && keywords[j] !in params
    requires forall i :: 0 <= i < j ==> keywords[i] in params
    ensures BindKeywords(params, keywords) == Err(keywords[j])
  {
    if j > 0 {
      assert keywords[1..][j - 1] == keywords[j];
      BindStopsAtFirstMissing(params, keywords[1..], j - 1);
    }
  }

  /** The loader's call into the Mistral family cannot bind: "rope_scaling"
      is not a parameter, so every Mistral model reaching dispatch raises TypeError. */
  lemma LoaderCallRejectedAsWritten()
    ensures BindKeywords(MistralParamsAsWritten, LoaderKeywords) == Err("rope_scaling")
  {
    assert forall i :: 0 <= i < 6 ==> LoaderKeywords[i] == MistralParamsAsWritten[i];
    assert LoaderKeywords[6] == "rope_scaling" && "rope_scaling" !in MistralParamsAsWritten;
    BindStopsAtFirstMissing(MistralParamsAsWritten, LoaderKeywords, 6);
  }

  /** The signature the dispatch evidently expects: the declared parameters
      plus the loader's extra keywords. */
  const MistralParams: seq<string> := MistralParamsAsWritten + [
    "rope_scaling", "fix_tokenizer", "model_patcher", "tokenizer_name",
    "trust_remote_code", "revision"]

  lemma LoaderCallBinds()
    ensures BindKeywords(MistralParams, LoaderKeywords) == Ok(())
  {
    assert MistralParams == LoaderKeywords;
    assert forall i :: 0 <= i < |LoaderKeywords| ==> LoaderKeywords[i] in MistralParams;
  }

  datatype MistralLoadError = BadKeyword(name: string) | BadDtype(e: DtypeError)

  /** A load the loader dispatched to the Mistral family: bind the loader's
      keywords against the corrected signature, then default the dtype the
      loader normalised. */
  function MistralFromPretrained(v: Loader.Release, l: Loader.Lookups, dtype: Loader.DTypeArg, supportsBf16: bool)
    : (r: Result<DType, MistralLoadError>)
    requires Loader.LoadDecision(v, l, dtype).Ok?
    requires Loader.LoadDecision(v, l, dtype).value.family == Loader.FastMistral
    ensures r.Ok?
    ensures r.value == BFloat16 ==> supportsBf16
    ensures Loader.GetDtype(dtype).Some? && Loader.GetDtype(dtype).value != BFloat16 ==> r.value == Loader.GetDtype(dtype).value
  {
    LoaderCallBinds();
    LoaderDtypeAlwaysAccepted(dtype, supportsBf16);
    var plan := Loader.LoadDecision(v, l, dtype).value;
    match BindKeywords(MistralParams, LoaderKeywords)
    case Err(k) => Err(BadKeyword(k))
    case Ok(_) =>
      match DefaultDtype(plan.dtype, supportsBf16)
      case Err(e) => Err(BadDtype(e))
      case Ok(d) => Ok(d)
  }
}
