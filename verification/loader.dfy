/** The decision tables of `FastLanguageModel.from_pretrained`: the
    transformers-version flags, `_get_dtype`, the config/adapter conflict
    rule, and the `model_type` dispatch with its version gates.

    Hub and filesystem lookups are inputs: whether each config loaded (or the
    message it raised with), whether the name is a local directory and which
    files it holds, and the file names a hub glob returns. */
module Loader {
  import opened Base

  // ---------------------------------------------------------------------
  // Versions

  /** A release number `(major, minor, micro, ...)`; comparisons pad the
      shorter one with zeros, so `4.45` and `4.45.0` are equal. */
  type Release = seq<nat>

  function Head(v: Release): nat
  {
    if |v| == 0 then 0 else v[0]
  }

  function Rest(v: Release): Release
  {
    if |v| == 0 then [] else v[1..]
  }

  /** -1, 0 or 1 as `a` is below, equal to or above `b`. */
  function Compare(a: Release, b: Release): (c: int)
    ensures -1 <= c <= 1
    decreases |a| + |b|
  {
    if |a| == 0 && |b| == 0 then 0
    else if Head(a) < Head(b) then -1
    else if Head(a) > Head(b) then 1
    else Compare(Rest(a), Rest(b))
  }

  lemma {:induction false} CompareAntisymmetric(a: Release, b: Release)
    ensures Compare(a, b) == -Compare(b, a)
    decreases |a| + |b|
  {
    if !(|a| == 0 && |b| == 0) && Head(a) == Head(b) {
      CompareAntisymmetric(Rest(a), Rest(b));
    }
  }

  lemma {:induction false} CompareTransitive(a: Release, b: Release, c: Release)
    requires Compare(a, b) >= 0 && Compare(b, c) >= 0
    ensures Compare(a, c) >= 0
    ensures Compare(a, b) > 0 || Compare(b, c) > 0 ==> Compare(a, c) > 0
    decreases |a| + |b| + |c|
  {
    if |a| == 0 && |b| == 0 && |c| == 0 {
    } else if |a| == 0 && |b| == 0 {
      assert Compare(b, c) == Compare([], c);
      if Head(c) == 0 {
        CompareTransitive(Rest(a), Rest(b), Rest(c));
      }
    } else if |b| == 0 && |c| == 0 {
      if Head(a) == 0 {
        CompareTransitive(Rest(a), Rest(b), Rest(c));
      }
    } else if |a| == 0 && |c| == 0 {
      if Head(b) == 0 {
        CompareTransitive(Rest(a), Rest(b), Rest(c));
      }
    } else if Head(a) == Head(b) && Head(b) == Head(c) {
      CompareTransitive(Rest(a), Rest(b), Rest(c));
    }
  }

  /** Trailing zeros do not change a release. */
  lemma {:induction false} TrailingZeroIgnored(a: Release)
    ensures Compare(a + [0], a) == 0
  {
    if |a| > 0 {
      assert Rest(a + [0]) == Rest(a) + [0];
      TrailingZeroIgnored(Rest(a));
    }
  }

  predicate AtLeast(v: Release, w: Release) { Compare(v, w) >= 0 }

  predicate Above(v: Release, w: Release) { Compare(v, w) > 0 }

  /** Lines 36-40. */
  predicate SupportsFourbit(v: Release) { AtLeast(v, [4, 37]) }
  predicate SupportsGemma(v: Release) { AtLeast(v, [4, 38]) }
  predicate SupportsGemma2(v: Release) { AtLeast(v, [4, 42]) }
  predicate SupportsLlama31(v: Release) { AtLeast(v, [4, 43, 2]) }
  predicate SupportsLlama32(v: Release) { Above(v, [4, 45, 0]) }

  /** Each flag implies the previous one: LLAMA32 => LLAMA31 => GEMMA2 => GEMMA => FOURBIT. */
  lemma FlagsMonotone(v: Release)
    ensures SupportsLlama32(v) ==> SupportsLlama31(v)
    ensures SupportsLlama31(v) ==> SupportsGemma2(v)
    ensures SupportsGemma2(v) ==> SupportsGemma(v)
    ensures SupportsGemma(v) ==> SupportsFourbit(v)
  {
    assert Compare([4, 45, 0], [4, 43, 2]) == 1;
    assert Compare([4, 43, 2], [4, 42]) == 1;
    assert Compare([4, 42], [4, 38]) == 1;
    assert Compare([4, 38], [4, 37]) == 1;
    if SupportsLlama32(v) {
      CompareTransitive(v, [4, 45, 0], [4, 43, 2]);
    }
    if SupportsLlama31(v) {
      CompareTransitive(v, [4, 43, 2], [4, 42]);
    }
    if SupportsGemma2(v) {
      CompareTransitive(v, [4, 42], [4, 38]);
    }
    if SupportsGemma(v) {
      CompareTransitive(v, [4, 38], [4, 37]);
    }
  }

  /** LLAMA32 is a strict comparison: 4.45 itself does not have it, 4.45.1 does. */
  lemma Llama32IsStrict()
    ensures !SupportsLlama32([4, 45]) && !SupportsLlama32([4, 45, 0])
    ensures SupportsLlama32([4, 45, 1]) && SupportsLlama31([4, 45])
  {
    assert Compare([4, 45], [4, 45, 0]) == 0;
  }

  // ---------------------------------------------------------------------
  // _get_dtype

  /** What can be passed as `dtype`: None, a string, a torch dtype, or any
      other hashable value (an unhashable one raises TypeError at the
      dictionary lookup of line 58 and is not modelled). */
  datatype DTypeArg = NoneArg | Name(s: string) | Torch(t: DType) | OtherArg

  /** Lines 48-61: the three float types by name or by dtype; None otherwise. */
  function GetDtype(arg: DTypeArg): (r: Option<DType>)
    ensures r.Some? ==> r.value == Float32 || r.value == Float16 || r.value == BFloat16
  {
    match arg
    case NoneArg => None
    case Name(s) =>
      if s == "float32" then Some(Float32)
      else if s == "float16" then Some(Float16)
      else if s == "bfloat16" then Some(BFloat16)
      else None
    case Torch(t) => if t == Float32 || t == Float16 || t == BFloat16 then Some(t) else None
    case OtherArg => None
  }

  /** The argument that passes an already normalised dtype on. */
  function ArgOf(d: Option<DType>): DTypeArg
  {
    match d
    case None => NoneArg
    case Some(t) => Torch(t)
  }

  /** Each recognised name and dtype maps to its dtype. */
  lemma GetDtypeRecognises()
    ensures GetDtype(Name("float32")) == GetDtype(Torch(Float32)) == Some(Float32)
    ensures GetDtype(Name("float16")) == GetDtype(Torch(Float16)) == Some(Float16)
    ensures GetDtype(Name("bfloat16")) == GetDtype(Torch(BFloat16)) == Some(BFloat16)
  {
  }

  /** None comes back for None and for every unrecognised hashable argument. */
  lemma GetDtypeRejects(arg: DTypeArg)
    requires arg.Name? ==> arg.s != "float32" && arg.s != "float16" && arg.s != "bfloat16"
    requires arg.Torch? ==> arg.t.OtherDType?
    ensures GetDtype(arg) == None
  {
  }

  /** Normalising a normalised dtype changes nothing. */
  lemma GetDtypeIdempotent(arg: DTypeArg)
    ensures GetDtype(ArgOf(GetDtype(arg))) == GetDtype(arg)
  {
  }

  // ---------------------------------------------------------------------
  // Which config to use

  /** The fields of a model config the dispatch reads. `rope_scaling`, when
      present, is seen through its "type" and "rope_type" keys. */
  datatype RopeScaling = RopeScaling(typeKey: Option<string>, ropeTypeKey: Option<string>)
  datatype ModelConfig = ModelConfig(modelType: string, ropeScaling: Option<RopeScaling>)

  /** The outcome of every lookup the loader makes. `config` and `peft` are
      `AutoConfig.from_pretrained` and `PeftConfig.from_pretrained` on the
      resolved name, each a config or the raised message; `baseConfig` is
      `AutoConfig.from_pretrained` on the adapter's base model. */
  datatype Lookups = Lookups(
    config: Result<ModelConfig, string>,
    peft: Result<string, string>,
    baseConfig: Result<ModelConfig, string>,
    isLocalDir: bool, localHasAdapterConfig: bool, localHasConfig: bool,
    hubJsonFiles: seq<string>)

  datatype LoadError =
    | BothConfigs                     // RuntimeError: adapter and base model in one repo
    | RopeScalingNeedsNewerTransformers  // ImportError
    | NoConfig(message: string)       // RuntimeError with the first config error
    | BaseConfigFailed(message: string)  // raised by AutoConfig on the adapter's base
    | Llama31NeedsNewerTransformers   // ImportError
    | GemmaNeedsNewerTransformers     // ImportError
    | Gemma2NeedsNewerTransformers    // ImportError
    | NotSupported                    // NotImplementedError

  /** How many file names are "adapter_config.json" or "config.json". */
  function CountConfigNames(files: seq<string>): (n: nat)
    ensures n <= |files|
  {
    if |files| == 0 then 0
    else (if files[0] == "adapter_config.json" || files[0] == "config.json" then 1 else 0)
         + CountConfigNames(files[1..])
  }

  /** Lines 122-141: before 4.45.1 both configs loading means both exist;
      from then on the files are looked for, locally or in a hub listing. */
  function BothExist(v: Release, l: Lookups): bool
  {
    if SupportsLlama32(v) then
      if l.isLocalDir then l.localHasAdapterConfig && l.localHasConfig
      else CountConfigNames(l.hubJsonFiles) >= 2
    else l.config.Ok? && l.peft.Ok?
  }

  /** Python's `a or b` on the two error strings. */
  function FirstError(a: string, b: string): string
  {
    if a != "" then a else b
  }

  /** Lines 143-175: the config whose `model_type` is dispatched on, or why
      there is none. */
  function ChooseConfig(v: Release, l: Lookups): (r: Result<ModelConfig, LoadError>)
    ensures BothExist(v, l) ==> r == Err(BothConfigs)
    ensures r.Ok? ==> (l.peft.Ok? && l.baseConfig == Ok(r.value))
                      || (l.peft.Err? && l.config == Ok(r.value))
    ensures !BothExist(v, l) && l.peft.Err? && l.config.Ok? ==> r == Ok(l.config.value)
    ensures !BothExist(v, l) && l.peft.Ok? && l.baseConfig.Ok? ==> r == Ok(l.baseConfig.value)
    ensures !BothExist(v, l) && l.peft.Ok? && l.baseConfig.Err? ==> r == Err(BaseConfigFailed(l.baseConfig.error))
  {
    if BothExist(v, l) then Err(BothConfigs)
    else if l.config.Err? && l.peft.Err? then
      var error := FirstError(l.config.error, l.peft.error);
      if Contains(Lower(error), "rope_scaling") && !SupportsLlama31(v) then Err(RopeScalingNeedsNewerTransformers)
      else Err(NoConfig(error))
    else if l.peft.Ok? then
      match l.baseConfig
      case Ok(c) => Ok(c)
      case Err(e) => Err(BaseConfigFailed(e))
    else Ok(l.config.value)
  }

  /** Before 4.45.1 the conflict is exactly "both configs loaded"; from then
      on, for a hub repo, exactly "at least two of the listed names are
      config.json or adapter_config.json". */
  lemma ConflictRule(v: Release, l: Lookups)
    ensures !SupportsLlama32(v) ==> (ChooseConfig(v, l) == Err(BothConfigs) <==> l.config.Ok? && l.peft.Ok?)
    ensures SupportsLlama32(v) && !l.isLocalDir ==>
      (ChooseConfig(v, l) == Err(BothConfigs) <==> CountConfigNames(l.hubJsonFiles) >= 2)
  {
  }

  /** Lines 149-159: when neither config loads the first non-empty message
      decides: ImportError if it mentions rope_scaling and 4.43.2 is missing,
      RuntimeError carrying it otherwise. */
  lemma NeitherConfigRule(v: Release, l: Lookups)
    requires !BothExist(v, l) && l.config.Err? && l.peft.Err?
    ensures var error := FirstError(l.config.error, l.peft.error);
      ChooseConfig(v, l) == if Contains(Lower(error), "rope_scaling") && !SupportsLlama31(v)
                            then Err(RopeScalingNeedsNewerTransformers) else Err(NoConfig(error))
  {
  }

  // ---------------------------------------------------------------------
  // Dispatch

  datatype Family = FastLlama | FastMistral | FastGemma | FastGemma2 | FastQwen2 | FastCohere

  /** The `model_type` each family is chosen for. */
  function ModelTypeOf(f: Family): string
  {
    match f
    case FastLlama => "llama"
    case FastMistral => "mistral"
    case FastGemma => "gemma"
    case FastGemma2 => "gemma2"
    case FastQwen2 => "qwen2"
    case FastCohere => "cohere"
  }

  /** Lines 179-184: the "type" key wins over "rope_type" when it is set. */
  function ScalingType(rope: Option<RopeScaling>): (r: Option<string>)
    ensures rope.Some? && rope.value.typeKey.Some? ==> r == rope.value.typeKey
    ensures rope.Some? && rope.value.typeKey.None? ==> r == rope.value.ropeTypeKey
    ensures rope.None? ==> r.None?
  {
    match rope
    case None => None
    case Some(rs) => if rs.typeKey.Some? then rs.typeKey else rs.ropeTypeKey
  }

  /** Lines 178-239. A family is chosen only for its own `model_type`, and
      each ImportError is raised exactly when that family's version gate is
      missing. */
  function Dispatch(v: Release, c: ModelConfig): (r: Result<Family, LoadError>)
    ensures r.Ok? ==> c.modelType == ModelTypeOf(r.value)
    ensures r == Err(Llama31NeedsNewerTransformers) <==>
              c.modelType == "llama" && ScalingType(c.ropeScaling) == Some("llama3") && !SupportsLlama31(v)
    ensures r == Err(GemmaNeedsNewerTransformers) <==> c.modelType == "gemma" && !SupportsGemma(v)
    ensures r == Err(Gemma2NeedsNewerTransformers) <==> c.modelType == "gemma2" && !SupportsGemma2(v)
  {
    if c.modelType == "llama" then
      if ScalingType(c.ropeScaling) == Some("llama3") && !SupportsLlama31(v) then Err(Llama31NeedsNewerTransformers)
      else Ok(FastLlama)
    else if c.modelType == "mistral" then Ok(FastMistral)
    else if c.modelType == "gemma" then
      if !SupportsGemma(v) then Err(GemmaNeedsNewerTransformers) else Ok(FastGemma)
    else if c.modelType == "gemma2" then
      if !SupportsGemma2(v) then Err(Gemma2NeedsNewerTransformers) else Ok(FastGemma2)
    else if c.modelType == "qwen2" then Ok(FastQwen2)
    else if c.modelType == "cohere" then Ok(FastCohere)
    else Err(NotSupported)
  }

  predicate KnownModelType(t: string)
  {
    t == "llama" || t == "mistral" || t == "gemma" || t == "gemma2" || t == "qwen2" || t == "cohere"
  }

  /** Each family's own `model_type` dispatches back to it once the version
      has the family's gate (and no Llama 3.1 scaling is asked of an old
      version); any other `model_type` is NotImplementedError. */
  lemma DispatchRoundTrip(v: Release, f: Family, rope: Option<RopeScaling>)
    requires f == FastGemma ==> SupportsGemma(v)
    requires f == FastGemma2 ==> SupportsGemma2(v)
    requires f == FastLlama && ScalingType(rope) == Some("llama3") ==> SupportsLlama31(v)
    ensures Dispatch(v, ModelConfig(ModelTypeOf(f), rope)) == Ok(f)
  {
  }

  /** A known `model_type` fails only on its own family's version gate: the
      three ImportErrors of lines 188-213, and nothing else. */
  lemma DispatchGates(v: Release, c: ModelConfig)
    requires KnownModelType(c.modelType)
    ensures Dispatch(v, c).Err? <==>
              || (c.modelType == "llama" && ScalingType(c.ropeScaling) == Some("llama3") && !SupportsLlama31(v))
              || (c.modelType == "gemma" && !SupportsGemma(v))
              || (c.modelType == "gemma2" && !SupportsGemma2(v))
    ensures Dispatch(v, c).Err? ==> Dispatch(v, c) != Err(NotSupported)
  {
  }

  lemma DispatchUnknown(v: Release, c: ModelConfig)
    ensures Dispatch(v, c) == Err(NotSupported) <==> !KnownModelType(c.modelType)
  {
  }

  /** Every ImportError of the dispatch is a missing version gate: with
      4.43.2 or later only an unknown `model_type` fails. */
  lemma RecentTransformersOnlyRejectUnknown(v: Release, c: ModelConfig)
    requires SupportsLlama31(v)
    ensures Dispatch(v, c).Err? ==> Dispatch(v, c) == Err(NotSupported)
  {
    FlagsMonotone(v);
  }

  /** What `from_pretrained` hands on: the family and the normalised dtype. */
  datatype LoadPlan = LoadPlan(family: Family, dtype: Option<DType>)

  /** The decisions of `FastLanguageModel.from_pretrained` up to the call
      into the chosen family. */
  function LoadDecision(v: Release, l: Lookups, dtype: DTypeArg): (r: Result<LoadPlan, LoadError>)
    ensures r.Ok? ==> r.value.dtype == GetDtype(dtype)
    ensures BothExist(v, l) ==> r == Err(BothConfigs)
    ensures r.Ok? <==> ChooseConfig(v, l).Ok? && Dispatch(v, ChooseConfig(v, l).value).Ok?
  {
    match ChooseConfig(v, l)
    case Err(e) => Err(e)
    case Ok(c) =>
      match Dispatch(v, c)
      case Err(e) => Err(e)
      case Ok(f) => Ok(LoadPlan(f, GetDtype(dtype)))
  }

  /** For an adapter the family is that of its base model's config. */
  lemma AdapterUsesBaseModelType(v: Release, l: Lookups, dtype: DTypeArg)
    requires l.peft.Ok? && LoadDecision(v, l, dtype).Ok?
    ensures l.baseConfig.Ok?
    ensures ModelTypeOf(LoadDecision(v, l, dtype).value.family) == l.baseConfig.value.modelType
  {
  }

  /** Without an adapter the family is that of the model's own config. */
  lemma PlainModelUsesOwnModelType(v: Release, l: Lookups, dtype: DTypeArg)
    requires l.peft.Err? && LoadDecision(v, l, dtype).Ok?
    ensures l.config.Ok?
    ensures ModelTypeOf(LoadDecision(v, l, dtype).value.family) == l.config.value.modelType
  {
  }

  /** When the load goes ahead: no conflicting configs, the model's own
      config loads, and its `model_type` passes dispatch. The plan then
      carries the dispatched family and `_get_dtype(dtype)`. */
  lemma PlainModelLoads(v: Release, l: Lookups, dtype: DTypeArg)
    requires !BothExist(v, l) && l.peft.Err? && l.config.Ok? && Dispatch(v, l.config.value).Ok?
    ensures LoadDecision(v, l, dtype) == Ok(LoadPlan(Dispatch(v, l.config.value).value, GetDtype(dtype)))
  {
  }

  /** The adapter counterpart: the base model's config loads and passes dispatch. */
  lemma AdapterLoads(v: Release, l: Lookups, dtype: DTypeArg)
    requires !BothExist(v, l) && l.peft.Ok? && l.baseConfig.Ok? && Dispatch(v, l.baseConfig.value).Ok?
    ensures LoadDecision(v, l, dtype) == Ok(LoadPlan(Dispatch(v, l.baseConfig.value).value, GetDtype(dtype)))
  {
  }
}
