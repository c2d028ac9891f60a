/**
  LLaMA model configuration (tensorrt_llm/models/llama/config.py): the
  DenseReplaceConfig dataclass, the invariants LLaMAConfig.__init__
  establishes, LLaMAConfig.to_dict, and the arithmetic from_meta_ckpt uses
  to derive the vocabulary and intermediate sizes from a Meta checkpoint's
  params.json.

  Python exceptions become `Failure` values naming the exception.
  MoeConfig lives in a module that is not part of this model: its
  validate, has_moe, from_dict and to_dict are given as functions in a
  `MoeOps` record, and PretrainedConfig's part of the configuration is kept
  as the dictionary of keyword arguments passed on to it.
*/
module LlamaConfig {
  import opened Wrappers

  /** A Python value as far as the configuration dictionaries need one. */
  datatype Value =
    | VNone
    | VBool(b: bool)
    | VInt(i: int)
    | VReal(r: real)
    | VStr(s: string)
    | VEnum(name: string)
    | VDict(d: map<string, Value>)

  datatype PyError = ValueError(msg: string) | TypeError(msg: string) | AssertionError(msg: string)
                   | KeyError(key: string) | ZeroDivisionError

  // ---------------------------------------------------------------------
  // Python integer division
  // ---------------------------------------------------------------------

  /** Python's `//` on ints: the quotient rounded toward negative infinity. */
  function FloorDiv(a: int, b: int): (q: int)
    requires b != 0
    ensures b > 0 ==> b * q <= a < b * q + b
    ensures b < 0 ==> b * q >= a > b * q + b
  {
    if b > 0 then
      DivBounds(a, b);
      a / b
    else
      DivBounds(-a, -b);
      (-a) / (-b)
  }

  /** int(a / b) for ints: true division truncated toward zero. */
  function TruncDiv(a: int, b: int): (q: int)
    requires b > 0
    ensures a >= 0 ==> 0 <= b * q <= a < b * q + b
    ensures a < 0 ==> b * q - b < a <= b * q <= 0
  {
    if a >= 0 then
      NonNegDivBounds(a, b);
      a / b
    else
      NegDivBounds(a, b);
      -((-a) / b)
  }

  /** The quotient of a non-negative int brackets it from below. */
  lemma NonNegDivBounds(a: int, b: int)
    requires b > 0 && a >= 0
    ensures 0 <= b * (a / b) <= a < b * (a / b) + b
  {
    var p := a / b;
    DivBounds(a, b);
    assert p >= 0 by {
      if p < 0 {
        assert b * p <= -b by { MulMonotoneUp(b, -1, p); }
      }
    }
    assert b * p >= 0 by { MulMonotoneUp(b, p, 0); }
  }

  /** Truncating a negative quotient: the negated quotient of -a brackets a from above. */
  lemma NegDivBounds(a: int, b: int)
    requires b > 0 && a < 0
    ensures var q := -((-a) / b); b * q - b < a <= b * q <= 0
  {
    var p := (-a) / b;
    DivBounds(-a, b);
    assert p >= 0 by {
      if p < 0 {
        assert b * p <= -b by { MulMonotoneUp(b, -1, p); }
      }
    }
    assert b * p >= 0 by { MulMonotoneUp(b, p, 0); }
    assert b * -p == -(b * p);
  }

  /** Dafny's division by a positive divisor rounds down. */
  lemma DivBounds(a: int, b: int)
    requires b > 0
    ensures b * (a / b) <= a < b * (a / b) + b
  {
    assert a == b * (a / b) + a % b;
  }

  // ---------------------------------------------------------------------
  // DenseReplaceConfig
  // ---------------------------------------------------------------------

  /** Replaces the first k MoE MLPs with dense MLPs of the given intermediate size. */
  datatype DenseReplaceConfig = DenseReplaceConfig(firstKMoeReplaceByDense: int, denseIntermediateSize: int)

  /** The dataclass defaults. */
  const DefaultDenseReplace: DenseReplaceConfig := DenseReplaceConfig(0, 0)

  /** Both fields are zero or neither is. */
  predicate BothOrNeither(c: DenseReplaceConfig)
  {
    (c.firstKMoeReplaceByDense == 0) == (c.denseIntermediateSize == 0)
  }

  /** The messages of the errors the configuration code raises. */
  const BothOrNeitherMessage: string := "Both or neither DenseReplaceConfig's first_k_moe_replace_by_dense and dense_intermediate_size must be set to 0"
  const UnexpectedKeywordMessage: string := "__init__() got an unexpected keyword argument"
  const MoeOnlyMessage: string := "DenseReplaceConfig can be used with moe only"

  /** validate: raises ValueError iff exactly one of the two fields is 0, else returns the object. */
  function Validate(c: DenseReplaceConfig): (r: Result<DenseReplaceConfig, PyError>)
    ensures r.Failure? <==> (c.firstKMoeReplaceByDense == 0) != (c.denseIntermediateSize == 0)
    ensures r.Failure? ==> r.error.ValueError?
    ensures r.Success? ==> r.value == c && BothOrNeither(c)
  {
    if (c.firstKMoeReplaceByDense == 0) != (c.denseIntermediateSize == 0) then
      Failure(ValueError(BothOrNeitherMessage))
    else
      Success(c)
  }

  /** has_replace: true iff the count of replaced layers is positive. */
  predicate HasReplace(c: DenseReplaceConfig)
  {
    c.firstKMoeReplaceByDense > 0
  }

  const FirstKKey: string := "first_k_moe_replace_by_dense"
  const DenseSizeKey: string := "dense_intermediate_size"

  /** to_dict (dataclasses.asdict): one entry per field. */
  function DenseToDict(c: DenseReplaceConfig): (d: map<string, int>)
    ensures d.Keys == {FirstKKey, DenseSizeKey}
    ensures d[FirstKKey] == c.firstKMoeReplaceByDense && d[DenseSizeKey] == c.denseIntermediateSize
  {
    map[FirstKKey := c.firstKMoeReplaceByDense, DenseSizeKey := c.denseIntermediateSize]
  }

  /**
    from_dict (cls(**config)): an unknown keyword is a TypeError, a
    missing field takes its default 0.
  */
  function DenseFromDict(d: map<string, int>): (r: Result<DenseReplaceConfig, PyError>)
    ensures r.Failure? <==> exists k :: k in d && k != FirstKKey && k != DenseSizeKey
    ensures r.Success? ==> r.value.firstKMoeReplaceByDense == (if FirstKKey in d then d[FirstKKey] else 0)
    ensures r.Success? ==> r.value.denseIntermediateSize == (if DenseSizeKey in d then d[DenseSizeKey] else 0)
  {
    if d.Keys <= {FirstKKey, DenseSizeKey} then
      Success(DenseReplaceConfig(
        if FirstKKey in d then d[FirstKKey] else 0,
        if DenseSizeKey in d then d[DenseSizeKey] else 0))
    else
      Failure(TypeError(UnexpectedKeywordMessage))
  }

  /** from_dict(c.to_dict()) == c. */
  lemma DenseDictRoundTrip(c: DenseReplaceConfig)
    ensures DenseFromDict(DenseToDict(c)) == Success(c)
  {
  }

  /** The dictionary of a config read back gives the same dictionary. */
  lemma DenseDictRoundTripBack(d: map<string, int>)
    requires d.Keys == {FirstKKey, DenseSizeKey}
    ensures DenseFromDict(d).Success? && DenseToDict(DenseFromDict(d).value) == d
  {
  }

  /** The default passes validation and replaces nothing. */
  lemma DefaultDenseReplaceIsValid()
    ensures Validate(DefaultDenseReplace) == Success(DefaultDenseReplace)
    ensures !HasReplace(DefaultDenseReplace)
  {
  }

  /** A valid config that replaces layers names a dense size for them. */
  lemma ValidReplaceHasDenseSize(c: DenseReplaceConfig)
    requires Validate(c).Success?
    ensures HasReplace(c) ==> c.denseIntermediateSize != 0
    ensures c.denseIntermediateSize == 0 ==> !HasReplace(c)
  {
  }

  // ---------------------------------------------------------------------
  // LLaMAConfig.__init__ and to_dict
  // ---------------------------------------------------------------------

  /** MoeConfig as LLaMAConfig builds it from the legacy keyword arguments. */
  datatype MoeConfig = MoeConfig(numExperts: Value, topK: Value, tpMode: Value,
                                 normalizationMode: Value, numSharedExperts: Value)

  /** The MoeConfig methods LLaMAConfig calls; their definitions are not part of this model. */
  datatype MoeOps = MoeOps(
    fromDict: map<string, Value> -> MoeConfig,
    validate: MoeConfig -> Result<MoeConfig, PyError>,
    hasMoe: MoeConfig -> bool,
    toDict: MoeConfig -> map<string, Value>)

  /** The `moe` argument: absent, a MoeConfig, a dict, or anything else. */
  datatype MoeArg = MoeAbsent | MoeGiven(config: MoeConfig) | MoeFromDict(d: map<string, Value>) | MoeOther

  /** The `dense_replace` argument: absent, a DenseReplaceConfig, a dict, or anything else. */
  datatype DenseArg = DenseAbsent | DenseGiven(config: DenseReplaceConfig)
                    | DenseFromDictArg(d: map<string, int>) | DenseOther

  datatype LlamaInitArgs = LlamaInitArgs(
    mlpBias: bool,
    attnBias: bool,
    rotaryBase: real,
    rotaryScaling: Option<map<string, Value>>,
    residualMlp: bool,
    disableWeightOnlyQuantPlugin: bool,
    moe: MoeArg,
    denseReplace: DenseArg,
    kwargs: map<string, Value>)

  /** A constructed LLaMAConfig; `base` holds the keyword arguments passed on to PretrainedConfig. */
  datatype LLaMAConfig = LLaMAConfig(
    mlpBias: bool,
    attnBias: bool,
    rotaryBase: real,
    rotaryScaling: Option<map<string, Value>>,
    residualMlp: bool,
    disableWeightOnlyQuantPlugin: bool,
    moe: MoeConfig,
    denseReplace: DenseReplaceConfig,
    base: map<string, Value>)

  /** dict.pop(key, default): the value (or the default) and the dict without the key. */
  function Pop(d: map<string, Value>, key: string, default: Value): (r: (Value, map<string, Value>))
    ensures r.0 == (if key in d then d[key] else default)
    ensures r.1 == d - {key}
  {
    (if key in d then d[key] else default, d - {key})
  }

  /** The legacy MoE keyword arguments. */
  const NumExpertsKey: string := "moe_num_experts"
  const TopKKey: string := "moe_top_k"
  const TpModeKey: string := "moe_tp_mode"
  const NormModeKey: string := "moe_normalization_mode"
  const NumSharedKey: string := "num_shared_experts"

  /** The defaults of the two legacy enum arguments: MoeConfig.ParallelismMode and ExpertScaleNormalizationMode members. */
  const TensorParallel: string := "TENSOR_PARALLEL"
  const Renormalize: string := "RENORMALIZE"

  /** The legacy keyword arguments a MoeConfig is built from when `moe` is absent. */
  const LegacyMoeKeys: set<string> :=
    {NumExpertsKey, TopKKey, TpModeKey, NormModeKey, NumSharedKey}

  /** Pops the legacy MoE fields out of kwargs, with their defaults. */
  function LegacyMoe(kwargs: map<string, Value>): (r: (MoeConfig, map<string, Value>))
    ensures r.1 == kwargs - LegacyMoeKeys
    ensures r.0.numExperts == (if NumExpertsKey in kwargs then kwargs[NumExpertsKey] else VInt(0))
    ensures r.0.topK == (if TopKKey in kwargs then kwargs[TopKKey] else VInt(0))
    ensures r.0.tpMode == (if TpModeKey in kwargs then kwargs[TpModeKey] else VEnum(TensorParallel))
    ensures r.0.normalizationMode == (if NormModeKey in kwargs then kwargs[NormModeKey] else VEnum(Renormalize))
    ensures r.0.numSharedExperts == (if NumSharedKey in kwargs then kwargs[NumSharedKey] else VInt(0))
  {
    var (numExperts, k1) := Pop(kwargs, NumExpertsKey, VInt(0));
    var (topK, k2) := Pop(k1, TopKKey, VInt(0));
    var (tpMode, k3) := Pop(k2, TpModeKey, VEnum(TensorParallel));
    var (normMode, k4) := Pop(k3, NormModeKey, VEnum(Renormalize));
    var (numShared, k5) := Pop(k4, NumSharedKey, VInt(0));
    (MoeConfig(numExperts, topK, tpMode, normMode, numShared), k5)
  }

  /** The `moe` argument resolved to a MoeConfig, and the kwargs left for PretrainedConfig. */
  function ResolveMoe(ops: MoeOps, arg: MoeArg, kwargs: map<string, Value>): Result<(MoeConfig, map<string, Value>), PyError>
  {
    match arg
    case MoeAbsent => Success(LegacyMoe(kwargs))
    case MoeGiven(c) => Success((c, kwargs))
    case MoeFromDict(d) => Success((ops.fromDict(d), kwargs))
    case MoeOther => Failure(AssertionError(""))
  }

  /** The `dense_replace` argument resolved to a DenseReplaceConfig. */
  function ResolveDense(arg: DenseArg): Result<DenseReplaceConfig, PyError>
  {
    match arg
    case DenseAbsent => Success(DefaultDenseReplace)
    case DenseGiven(c) => Success(c)
    case DenseFromDictArg(d) => DenseFromDict(d)
    case DenseOther => Failure(AssertionError(""))
  }

  /** What every constructed LLaMAConfig satisfies. */
  predicate ConfigInvariant(ops: MoeOps, c: LLaMAConfig)
  {
    BothOrNeither(c.denseReplace) && (HasReplace(c.denseReplace) ==> ops.hasMoe(c.moe))
  }

  /** LLaMAConfig.__init__, up to the call into PretrainedConfig.__init__. */
  function NewLLaMAConfig(ops: MoeOps, args: LlamaInitArgs): (r: Result<LLaMAConfig, PyError>)
    ensures r.Success? ==> ConfigInvariant(ops, r.value)
    ensures r.Success? ==> r.value.mlpBias == args.mlpBias && r.value.attnBias == args.attnBias
                           && r.value.rotaryBase == args.rotaryBase && r.value.rotaryScaling == args.rotaryScaling
                           && r.value.residualMlp == args.residualMlp
                           && r.value.disableWeightOnlyQuantPlugin == args.disableWeightOnlyQuantPlugin
    ensures r.Success? <==>
              ResolveMoe(ops, args.moe, args.kwargs).Success?
              && ops.validate(ResolveMoe(ops, args.moe, args.kwargs).value.0).Success?
              && ResolveDense(args.denseReplace).Success?
              && Validate(ResolveDense(args.denseReplace).value).Success?
              && (HasReplace(ResolveDense(args.denseReplace).value)
                  ==> ops.hasMoe(ops.validate(ResolveMoe(ops, args.moe, args.kwargs).value.0).value))
    ensures r.Success? ==>
              var resolved := ResolveMoe(ops, args.moe, args.kwargs).value;
              Success(r.value.moe) == ops.validate(resolved.0) && r.value.base == resolved.1
    ensures r.Success? ==> Success(r.value.denseReplace) == ResolveDense(args.denseReplace)
  {
    var moeAndRest :- ResolveMoe(ops, args.moe, args.kwargs);
    var moe :- ops.validate(moeAndRest.0);
    var dense0 :- ResolveDense(args.denseReplace);
    var dense :- Validate(dense0);
    if HasReplace(dense) && !ops.hasMoe(moe) then
      Failure(AssertionError(MoeOnlyMessage))
    else
      Success(LLaMAConfig(args.mlpBias, args.attnBias, args.rotaryBase, args.rotaryScaling,
                          args.residualMlp, args.disableWeightOnlyQuantPlugin, moe, dense, moeAndRest.1))
  }

  /** A dense replacement without MoE is refused, whatever else is given. */
  lemma DenseReplaceNeedsMoe(ops: MoeOps, args: LlamaInitArgs)
    requires ResolveDense(args.denseReplace).Success?
    requires HasReplace(ResolveDense(args.denseReplace).value)
    requires ResolveMoe(ops, args.moe, args.kwargs).Success?
    requires var m := ops.validate(ResolveMoe(ops, args.moe, args.kwargs).value.0);
             m.Success? && !ops.hasMoe(m.value)
    ensures NewLLaMAConfig(ops, args).Failure?
  {
  }

  /** With no dense_replace argument the config gets the default (0, 0) and no replacement. */
  lemma AbsentDenseReplaceIsDefault(ops: MoeOps, args: LlamaInitArgs)
    requires args.denseReplace.DenseAbsent?
    ensures NewLLaMAConfig(ops, args).Success? ==>
              NewLLaMAConfig(ops, args).value.denseReplace == DefaultDenseReplace
    ensures ResolveMoe(ops, args.moe, args.kwargs).Success?
            && ops.validate(ResolveMoe(ops, args.moe, args.kwargs).value.0).Success?
            ==> NewLLaMAConfig(ops, args).Success?
  {
  }

  /** Without a moe argument the legacy keywords are consumed and not passed on. */
  lemma LegacyMoeKeysConsumed(ops: MoeOps, args: LlamaInitArgs)
    requires args.moe.MoeAbsent?
    ensures NewLLaMAConfig(ops, args).Success? ==>
              NewLLaMAConfig(ops, args).value.base == args.kwargs - LegacyMoeKeys
  {
  }

  /** LLaMAConfig.to_dict: PretrainedConfig's dictionary plus the LLaMA fields and both sub-dicts. */
  function ToDict(ops: MoeOps, baseToDict: map<string, Value> -> map<string, Value>, c: LLaMAConfig): (d: map<string, Value>)
    ensures forall k :: k in baseToDict(c.base) ==> k in d
    ensures d.Keys == baseToDict(c.base).Keys + LlamaDictKeys
  {
    var scaling := match c.rotaryScaling case None => VNone case Some(s) => VDict(s);
    var dense := DenseToDict(c.denseReplace);
    baseToDict(c.base)[
      "mlp_bias" := VBool(c.mlpBias)][
      "attn_bias" := VBool(c.attnBias)][
      "rotary_base" := VReal(c.rotaryBase)][
      "rotary_scaling" := scaling][
      "residual_mlp" := VBool(c.residualMlp)][
      "disable_weight_only_quant_plugin" := VBool(c.disableWeightOnlyQuantPlugin)][
      "moe" := VDict(ops.toDict(c.moe))][
      "dense_replace" := VDict(map[FirstKKey := VInt(dense[FirstKKey]), DenseSizeKey := VInt(dense[DenseSizeKey])])]
  }

  const LlamaDictKeys: set<string> :=
    {"mlp_bias", "attn_bias", "rotary_base", "rotary_scaling", "residual_mlp",
     "disable_weight_only_quant_plugin", "moe", "dense_replace"}

  /** Reads an all-int dictionary back out of a dictionary value. */
  function IntDict(d: map<string, Value>): Option<map<string, int>>
  {
    if forall k :: k in d ==> d[k].VInt? then Some(map k | k in d :: d[k].i) else None
  }

  /**
    The dictionary carries the moe sub-dict and a dense_replace sub-dict
    from which DenseReplaceConfig.from_dict rebuilds the same config.
  */
  lemma ToDictCarriesSubDicts(ops: MoeOps, baseToDict: map<string, Value> -> map<string, Value>, c: LLaMAConfig)
    ensures var d := ToDict(ops, baseToDict, c);
            d["moe"] == VDict(ops.toDict(c.moe))
            && d["dense_replace"].VDict?
            && IntDict(d["dense_replace"].d) == Some(DenseToDict(c.denseReplace))
            && DenseFromDict(IntDict(d["dense_replace"].d).value) == Success(c.denseReplace)
            && d["mlp_bias"] == VBool(c.mlpBias) && d["residual_mlp"] == VBool(c.residualMlp)
  {
    var d := ToDict(ops, baseToDict, c);
    var sub := d["dense_replace"].d;
    assert (map k | k in sub :: sub[k].i) == DenseToDict(c.denseReplace);
  }

  // ---------------------------------------------------------------------
  // from_meta_ckpt
  // ---------------------------------------------------------------------

  const DefaultVocabSize: int := 32000

  /** vocab_size from params.json: absent, or -1 as in LLaMA v2 checkpoints, means 32000. */
  function MetaVocabSize(meta: map<string, int>): (v: int)
    ensures "vocab_size" !in meta ==> v == DefaultVocabSize
    ensures "vocab_size" in meta && meta["vocab_size"] == -1 ==> v == DefaultVocabSize
    ensures "vocab_size" in meta && meta["vocab_size"] != -1 ==> v == meta["vocab_size"]
  {
    var v := if "vocab_size" in meta then meta["vocab_size"] else DefaultVocabSize;
    if v == -1 then DefaultVocabSize else v
  }

  /** int(4 * n_embd * 2 / 3): two thirds of four times the embedding size, truncated. */
  function ScaledHidden(nEmbd: int): int
  {
    TruncDiv(4 * nEmbd * 2, 3)
  }

  /** int() of a number: the integer part, rounding toward zero. */
  function TruncReal(x: real): (r: int)
    ensures x >= 0.0 ==> 0 <= r && r as real <= x < r as real + 1.0
    ensures x < 0.0 ==> r <= 0 && r as real - 1.0 < x <= r as real
  {
    if x >= 0.0 then x.Floor else -((-x).Floor)
  }

  /** int(n_embd_ * ffn_dim_multiplier): the scaled hidden size times the multiplier, truncated. */
  function ScaledInter(nEmbd: int, ffnDimMultiplier: real): int
  {
    TruncReal(ScaledHidden(nEmbd) as real * ffnDimMultiplier)
  }

  /** An integral multiplier scales exactly: int() has nothing to truncate. */
  lemma IntegralMultiplierIsExact(nEmbd: int, k: int)
    ensures ScaledInter(nEmbd, k as real) == ScaledHidden(nEmbd) * k
  {
    var x := ScaledHidden(nEmbd) * k;
    assert ScaledHidden(nEmbd) as real * k as real == x as real;
  }

  /**
    The intermediate size when params.json has no hidden_dim:
    multiple_of * ((int(n_embd_ * ffn_dim_multiplier) + multiple_of - 1) // multiple_of).
    A multiple_of of 0 divides by zero.
  */
  function RoundedInterSize(nEmbd: int, multipleOf: int, ffnDimMultiplier: real): (r: Result<int, PyError>)
    ensures r.Failure? <==> multipleOf == 0
  {
    if multipleOf == 0 then Failure(ZeroDivisionError)
    else
      var x := ScaledInter(nEmbd, ffnDimMultiplier);
      Success(multipleOf * FloorDiv(x + multipleOf - 1, multipleOf))
  }

  /**
    ffn_dim_multiplier from params.json: a float entry (as Meta's
    checkpoints carry), an integer entry, or 1 when absent.
  */
  function MetaMultiplier(meta: map<string, int>, reals: map<string, real>): (f: real)
    ensures "ffn_dim_multiplier" in reals ==> f == reals["ffn_dim_multiplier"]
    ensures "ffn_dim_multiplier" !in reals && "ffn_dim_multiplier" in meta ==> f == meta["ffn_dim_multiplier"] as real
    ensures "ffn_dim_multiplier" !in reals && "ffn_dim_multiplier" !in meta ==> f == 1.0
  {
    if "ffn_dim_multiplier" in reals then reals["ffn_dim_multiplier"]
    else if "ffn_dim_multiplier" in meta then meta["ffn_dim_multiplier"] as real
    else 1.0
  }

  /** The inter_size computation of from_meta_ckpt. */
  function MetaInterSize(meta: map<string, int>, reals: map<string, real>, nEmbd: int): Result<int, PyError>
  {
    if "hidden_dim" in meta then Success(meta["hidden_dim"])
    else
      RoundedInterSize(nEmbd, if "multiple_of" in meta then meta["multiple_of"] else 1, MetaMultiplier(meta, reals))
  }

  /**
    For a positive multiple_of, the rounded size is the smallest multiple
    of multiple_of that is at least the scaled hidden size.
  */
  lemma {:induction false} RoundedInterSizeIsLeastMultiple(nEmbd: int, multipleOf: int, ffnDimMultiplier: real)
    requires multipleOf > 0
    ensures var x := ScaledInter(nEmbd, ffnDimMultiplier);
            var r := RoundedInterSize(nEmbd, multipleOf, ffnDimMultiplier);
            r.Success?
            && r.value % multipleOf == 0
            && x <= r.value < x + multipleOf
            && forall y :: x <= y && y % multipleOf == 0 ==> r.value <= y
  {
    var x := ScaledInter(nEmbd, ffnDimMultiplier);
    var q := FloorDiv(x + multipleOf - 1, multipleOf);
    assert multipleOf * q <= x + multipleOf - 1 < multipleOf * q + multipleOf;
    assert (multipleOf * q) % multipleOf == 0 by { MultipleMod(multipleOf, q); }
    forall y | x <= y && y % multipleOf == 0
      ensures multipleOf * q <= y
    {
      var k := y / multipleOf;
      DivBounds(y, multipleOf);
      assert y == multipleOf * k;
      assert multipleOf * k > multipleOf * (q - 1);
      MulMonotoneDown(multipleOf, k, q - 1);
      MulMonotoneUp(multipleOf, k, q);
    }
  }

  lemma MultipleMod(m: int, q: int)
    requires m > 0
    ensures (m * q) % m == 0
  {
    var d, r := (m * q) / m, (m * q) % m;
    assert m * q == m * d + r && 0 <= r < m;
    assert m * (q - d) == r;
    if q - d >= 1 {
      MulMonotoneUp(m, q - d, 1);
    } else if q - d <= -1 {
      MulMonotoneUp(m, -1, q - d);
    }
  }

  lemma MulMonotoneDown(m: int, a: int, b: int)
    requires m > 0 && m * a > m * b
    ensures a > b
  {
  }

  lemma MulMonotoneUp(m: int, a: int, b: int)
    requires m > 0 && a >= b
    ensures m * a >= m * b
  {
  }

  /** With the default multiple_of of 1 and multiplier 1, the size is the scaled hidden size itself. */
  lemma DefaultInterSizeIsScaledHidden(meta: map<string, int>, reals: map<string, real>, nEmbd: int)
    requires "hidden_dim" !in meta && "multiple_of" !in meta && "ffn_dim_multiplier" !in meta
    requires "ffn_dim_multiplier" !in reals
    ensures MetaInterSize(meta, reals, nEmbd) == Success(ScaledHidden(nEmbd))
  {
    IntegralMultiplierIsExact(nEmbd, 1);
  }

  /**
    LLaMA-2-70B's params.json (dim 8192, multiple_of 4096,
    ffn_dim_multiplier 1.3): int(21845 * 1.3) = 28398 rounds up to 28672.
  */
  lemma FractionalMultiplierInterSize()
    ensures MetaInterSize(map["dim" := 8192, "multiple_of" := 4096], map["ffn_dim_multiplier" := 1.3], 8192)
            == Success(28672)
  {
    assert ScaledHidden(8192) == 21845;
    assert ScaledInter(8192, 1.3) == 28398;
    assert FloorDiv(28398 + 4096 - 1, 4096) == 7;
  }

  /** The settings from_meta_ckpt passes to the constructor. */
  datatype MetaSettings = MetaSettings(
    numHiddenLayers: int,
    numAttentionHeads: int,
    hiddenSize: int,
    intermediateSize: int,
    numKeyValueHeads: int,
    vocabSize: int,
    dtype: string,
    rotaryBase: real,
    normEpsilon: real)

  /**
    dtype 'auto' means bfloat16; bfloat16 falls back to float16 on a GPU
    whose compute capability major version is below 8 (the device query
    is given as `deviceMajor`).
  */
  function ResolveDtype(dtype: string, deviceMajor: int): (r: string)
    ensures dtype == "auto" && deviceMajor >= 8 ==> r == "bfloat16"
    ensures (dtype == "auto" || dtype == "bfloat16") && deviceMajor < 8 ==> r == "float16"
    ensures dtype != "auto" && dtype != "bfloat16" ==> r == dtype
  {
    var d := if dtype == "auto" then "bfloat16" else dtype;
    if d == "bfloat16" && deviceMajor < 8 then "float16" else d
  }

  /** rope_theta when params.json has none. */
  const DefaultRopeTheta: real := 10000.0

  /**
    from_meta_ckpt on the entries of params.json, its integer entries in
    `meta` and its float entries (norm_eps, rope_theta, a fractional
    ffn_dim_multiplier) in `reals`.  The keys are read in the order of
    the source: dim, n_heads, then the
    intermediate size, then n_layers and norm_eps; the first one missing
    is the KeyError raised.  n_kv_heads defaults to n_heads.
  */
  function FromMetaCkpt(meta: map<string, int>, reals: map<string, real>, dtype: string, deviceMajor: int)
    : (r: Result<MetaSettings, PyError>)
    ensures r.Success? <==> "dim" in meta && "n_heads" in meta && "n_layers" in meta && "norm_eps" in reals
                            && MetaInterSize(meta, reals, meta["dim"]).Success?
    ensures "dim" !in meta ==> r == Failure(KeyError("dim"))
    ensures "dim" in meta && "n_heads" !in meta ==> r == Failure(KeyError("n_heads"))
    ensures "dim" in meta && "n_heads" in meta && MetaInterSize(meta, reals, meta["dim"]).Success? && "n_layers" !in meta
            ==> r == Failure(KeyError("n_layers"))
    ensures r.Failure? && "dim" in meta && "n_heads" in meta && "n_layers" in meta && MetaInterSize(meta, reals, meta["dim"]).Success?
            ==> r.error == KeyError("norm_eps")
    ensures r.Success? ==> r.value.hiddenSize == meta["dim"] && r.value.numAttentionHeads == meta["n_heads"]
                           && r.value.numHiddenLayers == meta["n_layers"]
    ensures r.Success? ==> r.value.vocabSize == MetaVocabSize(meta)
    ensures r.Success? ==> r.value.numKeyValueHeads == (if "n_kv_heads" in meta then meta["n_kv_heads"] else meta["n_heads"])
    ensures r.Success? && "hidden_dim" in meta ==> r.value.intermediateSize == meta["hidden_dim"]
    ensures r.Success? ==> r.value.normEpsilon == reals["norm_eps"]
    ensures r.Success? ==> r.value.rotaryBase == (if "rope_theta" in reals then reals["rope_theta"] else DefaultRopeTheta)
    ensures r.Success? ==> r.value.dtype == ResolveDtype(dtype, deviceMajor)
  {
    if "dim" !in meta then Failure(KeyError("dim"))
    else if "n_heads" !in meta then Failure(KeyError("n_heads"))
    else
      var nEmbd := meta["dim"];
      var nHead := meta["n_heads"];
      var nKvHead := if "n_kv_heads" in meta then meta["n_kv_heads"] else nHead;
      var vocab := MetaVocabSize(meta);
      var interSize :- MetaInterSize(meta, reals, nEmbd);
      var resolved := ResolveDtype(dtype, deviceMajor);
      if "n_layers" !in meta then Failure(KeyError("n_layers"))
      else
        var ropeTheta := if "rope_theta" in reals then reals["rope_theta"] else DefaultRopeTheta;
        if "norm_eps" !in reals then Failure(KeyError("norm_eps"))
        else Success(MetaSettings(meta["n_layers"], nHead, nEmbd, interSize, nKvHead, vocab, resolved,
                                  ropeTheta, reals["norm_eps"]))
  }

  /** The intermediate size from_meta_ckpt derives is a multiple of a positive multiple_of. */
  lemma MetaInterSizeRoundsUp(meta: map<string, int>, reals: map<string, real>, dtype: string, deviceMajor: int)
    requires "hidden_dim" !in meta && "multiple_of" in meta && meta["multiple_of"] > 0
    requires FromMetaCkpt(meta, reals, dtype, deviceMajor).Success?
    ensures var s := FromMetaCkpt(meta, reals, dtype, deviceMajor).value;
            var m := meta["multiple_of"];
            var x := ScaledInter(meta["dim"], MetaMultiplier(meta, reals));
            s.intermediateSize % m == 0 && x <= s.intermediateSize < x + m
  {
    RoundedInterSizeIsLeastMultiple(meta["dim"], meta["multiple_of"], MetaMultiplier(meta, reals));
  }
}
