/**
  Tensor layout of the mixture-of-experts TensorRT plugin
  (cpp/tensorrt_llm/plugins/mixtureOfExperts/mixtureOfExpertsPlugin.h).

  The plugin's optional inputs are numbered by a chain of index getters:
  every getter takes the previous getter's index and adds one when its own
  input is present.  The model keeps that chain as written and proves that
  it numbers exactly the present inputs, in declaration order, from 0 up to
  getNbInputs() - 1.  The same file defines the GEMM profiler key GemmIDMoe,
  its equality and its hash.
*/
module MoePlugin {

  /** A C++ bool converted to int inside an index sum. */
  function B2I(b: bool): (r: int)
    ensures r == 0 || r == 1
    ensures r == 1 <==> b
  {
    if b then 1 else 0
  }

  /**
    The plugin fields that decide which optional tensors exist.  The
    QuantMode queries and isGatedActivation(mActivationType) are given as
    the booleans they return.
  */
  datatype MixtureOfExpertsPlugin = MixtureOfExpertsPlugin(
    useBias: bool,                          // mUseBias
    useFinished: bool,                      // mUseFinished
    int4Weights: bool,                      // mQuantMode.hasInt4Weights()
    int8Weights: bool,                      // mQuantMode.hasInt8Weights()
    fp8Qdq: bool,                           // mQuantMode.hasFp8Qdq()
    outputIsFp8: bool,                      // mOutputType == DataType::kFP8
    sideStreamId: int,                      // mSideStreamId
    useLora: bool,                          // mUseLora
    gatedActivation: bool,                  // isGatedActivation(mActivationType)
    useDeepSeek: bool,                      // mUseDeepSeek
    useDeepSeekWithNativeFp8Weights: bool,  // mUseDeepSeekWithNativeFp8Weights
    removeInputPadding: bool)               // mRemoveInputPadding

  // ---------------------------------------------------------------------
  // Feature predicates
  // ---------------------------------------------------------------------

  predicate HasBias(p: MixtureOfExpertsPlugin) { p.useBias }

  predicate HasFinishedTensor(p: MixtureOfExpertsPlugin) { p.useFinished }

  predicate HasExpertIntQuantScales(p: MixtureOfExpertsPlugin) { p.int4Weights || p.int8Weights }

  predicate HasExpertFp8QuantScales(p: MixtureOfExpertsPlugin) { p.fp8Qdq }

  predicate HasExpertFp8FinalQuantScales(p: MixtureOfExpertsPlugin)
  {
    HasExpertFp8QuantScales(p) && p.outputIsFp8
  }

  predicate UseSideStream(p: MixtureOfExpertsPlugin) { p.sideStreamId > 0 }

  predicate HasLora(p: MixtureOfExpertsPlugin) { p.useLora }

  predicate UseDeepSeek(p: MixtureOfExpertsPlugin) { p.useDeepSeek }

  predicate UseDeepSeekWithNativeFp8Weights(p: MixtureOfExpertsPlugin)
  {
    p.useDeepSeekWithNativeFp8Weights
  }

  predicate HasGatedLoraWeightsAndRanks(p: MixtureOfExpertsPlugin)
  {
    p.useLora && p.gatedActivation
  }

  // ---------------------------------------------------------------------
  // Input indices, as the header computes them
  // ---------------------------------------------------------------------

  function GetInputTensorIndex(): int { 0 }

  function GetRoutingTensorIndex(): int { GetInputTensorIndex() + 1 }

  function GetExpertWeights1Index(): int { GetRoutingTensorIndex() + 1 }

  function GetExpertWeights2Index(): int { GetExpertWeights1Index() + 1 }

  function GetExpertBias1Index(p: MixtureOfExpertsPlugin): int
  {
    GetExpertWeights2Index() + B2I(HasBias(p))
  }

  function GetExpertBias2Index(p: MixtureOfExpertsPlugin): int
  {
    GetExpertBias1Index(p) + B2I(HasBias(p))
  }

  function GetFinishedTensorIndex(p: MixtureOfExpertsPlugin): int
  {
    GetExpertBias2Index(p) + B2I(HasFinishedTensor(p))
  }

  function GetExpertDeepseekScale1Index(p: MixtureOfExpertsPlugin): int
  {
    GetFinishedTensorIndex(p) + B2I(UseDeepSeekWithNativeFp8Weights(p))
  }

  function GetExpertDeepseekScale2Index(p: MixtureOfExpertsPlugin): int
  {
    GetExpertDeepseekScale1Index(p) + B2I(UseDeepSeekWithNativeFp8Weights(p))
  }

  function GetExpertIntQuantScale1Index(p: MixtureOfExpertsPlugin): int
  {
    GetFinishedTensorIndex(p) + B2I(HasExpertIntQuantScales(p))
  }

  function GetExpertIntQuantScale2Index(p: MixtureOfExpertsPlugin): int
  {
    GetExpertIntQuantScale1Index(p) + B2I(HasExpertIntQuantScales(p))
  }

  /** std::max of the two second-scale indices, plus the fp8 flag. */
  function GetExpertFP8Dequant1Index(p: MixtureOfExpertsPlugin): (r: int)
    ensures r >= GetExpertIntQuantScale2Index(p) && r >= GetExpertDeepseekScale2Index(p)
    ensures r >= GetExpertIntQuantScale2Index(p) + B2I(HasExpertFp8QuantScales(p))
         && r >= GetExpertDeepseekScale2Index(p) + B2I(HasExpertFp8QuantScales(p))
    ensures r == GetExpertIntQuantScale2Index(p) + B2I(HasExpertFp8QuantScales(p))
         || r == GetExpertDeepseekScale2Index(p) + B2I(HasExpertFp8QuantScales(p))
  {
    var a := GetExpertIntQuantScale2Index(p);
    var b := GetExpertDeepseekScale2Index(p);
    (if a >= b then a else b) + B2I(HasExpertFp8QuantScales(p))
  }

  function GetExpertFP8Quant2Index(p: MixtureOfExpertsPlugin): int
  {
    GetExpertFP8Dequant1Index(p) + B2I(HasExpertFp8QuantScales(p))
  }

  function GetExpertFP8Dequant2Index(p: MixtureOfExpertsPlugin): int
  {
    GetExpertFP8Quant2Index(p) + B2I(HasExpertFp8QuantScales(p))
  }

  function GetExpertFP8QuantFinalIndex(p: MixtureOfExpertsPlugin): int
  {
    GetExpertFP8Dequant2Index(p) + B2I(HasExpertFp8FinalQuantScales(p))
  }

  function GetInputFP8DequantIndex(p: MixtureOfExpertsPlugin): int
  {
    GetExpertFP8QuantFinalIndex(p) + B2I(HasExpertFp8QuantScales(p) && HasLora(p))
  }

  function GetLoraFC1WeightPtrsIndex(p: MixtureOfExpertsPlugin): int
  {
    GetInputFP8DequantIndex(p) + B2I(HasLora(p))
  }

  function GetLoraFC1RanksIndex(p: MixtureOfExpertsPlugin): int
  {
    GetLoraFC1WeightPtrsIndex(p) + B2I(HasLora(p))
  }

  function GetLoraFC2WeightPtrsIndex(p: MixtureOfExpertsPlugin): int
  {
    GetLoraFC1RanksIndex(p) + B2I(HasLora(p))
  }

  function GetLoraFC2RanksIndex(p: MixtureOfExpertsPlugin): int
  {
    GetLoraFC2WeightPtrsIndex(p) + B2I(HasLora(p))
  }

  function GetLoraGatedWeightPtrsIndex(p: MixtureOfExpertsPlugin): int
  {
    GetLoraFC2RanksIndex(p) + B2I(HasGatedLoraWeightsAndRanks(p))
  }

  function GetLoraGatedRanksIndex(p: MixtureOfExpertsPlugin): int
  {
    GetLoraGatedWeightPtrsIndex(p) + B2I(HasGatedLoraWeightsAndRanks(p))
  }

  function GetHostRequestTypeIndex(p: MixtureOfExpertsPlugin): int
  {
    GetLoraGatedRanksIndex(p) + B2I(HasLora(p))
  }

  function GetHostContextLengthIndex(p: MixtureOfExpertsPlugin): int
  {
    GetHostRequestTypeIndex(p) + B2I(p.removeInputPadding && HasLora(p))
  }

  function GetInputDummyTensorIndex(p: MixtureOfExpertsPlugin): int
  {
    GetHostContextLengthIndex(p) + B2I(UseSideStream(p))
  }

  /** The dummy input, when there is one, is the last input. */
  function GetNbInputs(p: MixtureOfExpertsPlugin): (r: int)
    ensures r >= 4
    ensures UseSideStream(p) ==> GetInputDummyTensorIndex(p) == r - 1
  {
    GetInputDummyTensorIndex(p) + 1
  }

  // ---------------------------------------------------------------------
  // Outputs and GEMM shape helpers
  // ---------------------------------------------------------------------

  /** One output, plus a dummy output when a side stream is used. */
  function GetNbOutputs(p: MixtureOfExpertsPlugin): (r: int)
    ensures r == 1 || r == 2
    ensures r == 2 <==> p.sideStreamId > 0
  {
    1 + B2I(UseSideStream(p))
  }

  function GetOutputTensorIndex(): int { 0 }

  /** Without a side stream the dummy index coincides with the real output;
      with one it is the second, last, output. */
  function GetOutputDummyTensorIndex(p: MixtureOfExpertsPlugin): (r: int)
    ensures r == GetNbOutputs(p) - 1
    ensures r != GetOutputTensorIndex() <==> UseSideStream(p)
  {
    GetOutputTensorIndex() + B2I(UseSideStream(p))
  }

  /** Index of the inner dimension in the expert shape tuple (transposed in weight-only mode). */
  function GetGemmShapeInnerDimIndex(p: MixtureOfExpertsPlugin): (r: int)
    ensures r == 1 || r == 2
    ensures r == 1 <==> HasExpertIntQuantScales(p)
  {
    if HasExpertIntQuantScales(p) then 1 else 2
  }

  /** Index of the outer dimension in the expert shape tuple. */
  function GetGemmShapeOuterDimIndex(p: MixtureOfExpertsPlugin): (r: int)
    ensures r == 1 || r == 2
    ensures r == 2 <==> HasExpertIntQuantScales(p)
  {
    if HasExpertIntQuantScales(p) then 2 else 1
  }

  /** The inner and outer dimension indices always name the two distinct
      non-expert axes {1, 2} of the expert weight shape. */
  lemma GemmShapeIndicesDistinct(p: MixtureOfExpertsPlugin)
    ensures GetGemmShapeInnerDimIndex(p) != GetGemmShapeOuterDimIndex(p)
    ensures GetGemmShapeInnerDimIndex(p) + GetGemmShapeOuterDimIndex(p) == 3
  {
  }

  /** Two int4 values are packed in one element; everything else is unpacked. */
  function GetWeightPackedElements(p: MixtureOfExpertsPlugin): (r: int)
    ensures r == 1 || r == 2
    ensures r == 2 <==> p.int4Weights
  {
    if p.int4Weights then 2 else 1
  }

  // ---------------------------------------------------------------------
  // The layout the index chain describes
  // ---------------------------------------------------------------------

  /** Every input the plugin can take, in the order the header declares their getters. */
  datatype MoeInput =
    | InputTensor | RoutingTensor | ExpertWeights1 | ExpertWeights2
    | ExpertBias1 | ExpertBias2 | FinishedTensor
    | ExpertDeepseekScale1 | ExpertDeepseekScale2
    | ExpertIntQuantScale1 | ExpertIntQuantScale2
    | ExpertFP8Dequant1 | ExpertFP8Quant2 | ExpertFP8Dequant2 | ExpertFP8QuantFinal
    | InputFP8Dequant
    | LoraFC1WeightPtrs | LoraFC1Ranks | LoraFC2WeightPtrs | LoraFC2Ranks
    | LoraGatedWeightPtrs | LoraGatedRanks
    | HostRequestType | HostContextLength | InputDummyTensor

  /** Whether the plugin takes input k (the condition under which its getter adds one). */
  predicate Present(p: MixtureOfExpertsPlugin, k: MoeInput)
  {
    match k
    case InputTensor | RoutingTensor | ExpertWeights1 | ExpertWeights2 => true
    case ExpertBias1 | ExpertBias2 => HasBias(p)
    case FinishedTensor => HasFinishedTensor(p)
    case ExpertDeepseekScale1 | ExpertDeepseekScale2 => UseDeepSeekWithNativeFp8Weights(p)
    case ExpertIntQuantScale1 | ExpertIntQuantScale2 => HasExpertIntQuantScales(p)
    case ExpertFP8Dequant1 | ExpertFP8Quant2 | ExpertFP8Dequant2 => HasExpertFp8QuantScales(p)
    case ExpertFP8QuantFinal => HasExpertFp8FinalQuantScales(p)
    case InputFP8Dequant => HasExpertFp8QuantScales(p) && HasLora(p)
    case LoraFC1WeightPtrs | LoraFC1Ranks | LoraFC2WeightPtrs | LoraFC2Ranks => HasLora(p)
    case LoraGatedWeightPtrs | LoraGatedRanks => HasGatedLoraWeightsAndRanks(p)
    case HostRequestType => HasLora(p)
    case HostContextLength => p.removeInputPadding && HasLora(p)
    case InputDummyTensor => UseSideStream(p)
  }

  /** The getter the header provides for input k. */
  function InputIndex(p: MixtureOfExpertsPlugin, k: MoeInput): int
  {
    match k
    case InputTensor => GetInputTensorIndex()
    case RoutingTensor => GetRoutingTensorIndex()
    case ExpertWeights1 => GetExpertWeights1Index()
    case ExpertWeights2 => GetExpertWeights2Index()
    case ExpertBias1 => GetExpertBias1Index(p)
    case ExpertBias2 => GetExpertBias2Index(p)
    case FinishedTensor => GetFinishedTensorIndex(p)
    case ExpertDeepseekScale1 => GetExpertDeepseekScale1Index(p)
    case ExpertDeepseekScale2 => GetExpertDeepseekScale2Index(p)
    case ExpertIntQuantScale1 => GetExpertIntQuantScale1Index(p)
    case ExpertIntQuantScale2 => GetExpertIntQuantScale2Index(p)
    case ExpertFP8Dequant1 => GetExpertFP8Dequant1Index(p)
    case ExpertFP8Quant2 => GetExpertFP8Quant2Index(p)
    case ExpertFP8Dequant2 => GetExpertFP8Dequant2Index(p)
    case ExpertFP8QuantFinal => GetExpertFP8QuantFinalIndex(p)
    case InputFP8Dequant => GetInputFP8DequantIndex(p)
    case LoraFC1WeightPtrs => GetLoraFC1WeightPtrsIndex(p)
    case LoraFC1Ranks => GetLoraFC1RanksIndex(p)
    case LoraFC2WeightPtrs => GetLoraFC2WeightPtrsIndex(p)
    case LoraFC2Ranks => GetLoraFC2RanksIndex(p)
    case LoraGatedWeightPtrs => GetLoraGatedWeightPtrsIndex(p)
    case LoraGatedRanks => GetLoraGatedRanksIndex(p)
    case HostRequestType => GetHostRequestTypeIndex(p)
    case HostContextLength => GetHostContextLengthIndex(p)
    case InputDummyTensor => GetInputDummyTensorIndex(p)
  }

  function If(b: bool, s: seq<MoeInput>): seq<MoeInput> { if b then s else [] }

  /** The present inputs in declaration order, built in the same five
      stages as the getter chain: the reference layout. */
  function LayoutThroughFinished(p: MixtureOfExpertsPlugin): seq<MoeInput>
  {
    [InputTensor, RoutingTensor, ExpertWeights1, ExpertWeights2]
    + If(HasBias(p), [ExpertBias1, ExpertBias2])
    + If(HasFinishedTensor(p), [FinishedTensor])
  }

  function LayoutThroughScales(p: MixtureOfExpertsPlugin): seq<MoeInput>
  {
    LayoutThroughFinished(p)
    + If(UseDeepSeekWithNativeFp8Weights(p), [ExpertDeepseekScale1, ExpertDeepseekScale2])
    + If(HasExpertIntQuantScales(p), [ExpertIntQuantScale1, ExpertIntQuantScale2])
  }

  function LayoutThroughFp8(p: MixtureOfExpertsPlugin): seq<MoeInput>
  {
    LayoutThroughScales(p)
    + If(HasExpertFp8QuantScales(p), [ExpertFP8Dequant1, ExpertFP8Quant2, ExpertFP8Dequant2])
    + If(HasExpertFp8FinalQuantScales(p), [ExpertFP8QuantFinal])
    + If(HasExpertFp8QuantScales(p) && HasLora(p), [InputFP8Dequant])
  }

  function LayoutThroughLora(p: MixtureOfExpertsPlugin): seq<MoeInput>
  {
    LayoutThroughFp8(p)
    + If(HasLora(p), [LoraFC1WeightPtrs, LoraFC1Ranks, LoraFC2WeightPtrs, LoraFC2Ranks])
    + If(HasGatedLoraWeightsAndRanks(p), [LoraGatedWeightPtrs, LoraGatedRanks])
  }

  function Layout(p: MixtureOfExpertsPlugin): seq<MoeInput>
  {
    LayoutThroughLora(p)
    + If(HasLora(p), [HostRequestType])
    + If(p.removeInputPadding && HasLora(p), [HostContextLength])
    + If(UseSideStream(p), [InputDummyTensor])
  }

  /** The two scale families are not both in use (the configurations the layout is meant for). */
  predicate OneScaleFamily(p: MixtureOfExpertsPlugin)
  {
    !(UseDeepSeekWithNativeFp8Weights(p) && HasExpertIntQuantScales(p))
  }

  /** Inputs the getter chain does not count: the two scale families share their two indices. */
  function Uncounted(p: MixtureOfExpertsPlugin): nat
  {
    if OneScaleFamily(p) then 0 else 2
  }

  /** Each stage of the layout ends where the getter chain says it does, up to the uncounted inputs. */
  lemma StageLengths(p: MixtureOfExpertsPlugin)
    ensures |LayoutThroughFinished(p)| == GetFinishedTensorIndex(p) + 1
    ensures |LayoutThroughScales(p)| + B2I(HasExpertFp8QuantScales(p)) == GetExpertFP8Dequant1Index(p) + 1 + Uncounted(p)
    ensures |LayoutThroughFp8(p)| == GetInputFP8DequantIndex(p) + 1 + Uncounted(p)
    ensures |LayoutThroughLora(p)| == GetLoraGatedRanksIndex(p) + 1 + Uncounted(p)
    ensures |Layout(p)| == GetInputDummyTensorIndex(p) + 1 + Uncounted(p)
  {
    assert |LayoutThroughFinished(p)| == GetFinishedTensorIndex(p) + 1;
    assert |LayoutThroughScales(p)| + B2I(HasExpertFp8QuantScales(p)) == GetExpertFP8Dequant1Index(p) + 1 + Uncounted(p);
    assert |LayoutThroughFp8(p)| == GetInputFP8DequantIndex(p) + 1 + Uncounted(p);
    assert |LayoutThroughLora(p)| == GetLoraGatedRanksIndex(p) + 1 + Uncounted(p);
  }

  /** Inputs 0 to 3 are fixed; they do not depend on any flag. */
  lemma FixedInputIndices()
    ensures GetInputTensorIndex() == 0 && GetRoutingTensorIndex() == 1
    ensures GetExpertWeights1Index() == 2 && GetExpertWeights2Index() == 3
  {
  }

  /** Each getter is the previous one plus 0 or 1, so the chain never decreases. */
  lemma IndexChainNonDecreasing(p: MixtureOfExpertsPlugin)
    ensures GetExpertWeights2Index() <= GetExpertBias1Index(p) <= GetExpertBias2Index(p)
    ensures GetExpertBias2Index(p) <= GetFinishedTensorIndex(p)
    ensures GetFinishedTensorIndex(p) <= GetExpertDeepseekScale1Index(p) <= GetExpertDeepseekScale2Index(p)
    ensures GetFinishedTensorIndex(p) <= GetExpertIntQuantScale1Index(p) <= GetExpertIntQuantScale2Index(p)
    ensures GetExpertDeepseekScale2Index(p) <= GetExpertFP8Dequant1Index(p)
    ensures GetExpertIntQuantScale2Index(p) <= GetExpertFP8Dequant1Index(p)
    ensures GetExpertFP8Dequant1Index(p) <= GetExpertFP8Quant2Index(p) <= GetExpertFP8Dequant2Index(p)
    ensures GetExpertFP8Dequant2Index(p) <= GetExpertFP8QuantFinalIndex(p) <= GetInputFP8DequantIndex(p)
    ensures GetInputFP8DequantIndex(p) <= GetLoraFC1WeightPtrsIndex(p) <= GetLoraFC1RanksIndex(p)
    ensures GetLoraFC1RanksIndex(p) <= GetLoraFC2WeightPtrsIndex(p) <= GetLoraFC2RanksIndex(p)
    ensures GetLoraFC2RanksIndex(p) <= GetLoraGatedWeightPtrsIndex(p) <= GetLoraGatedRanksIndex(p)
    ensures GetLoraGatedRanksIndex(p) <= GetHostRequestTypeIndex(p) <= GetHostContextLengthIndex(p)
    ensures GetHostContextLengthIndex(p) <= GetInputDummyTensorIndex(p) < GetNbInputs(p)
  {
  }

  /** Both families of weight scales start right after the finished tensor, so
      when a plugin had deepseek scales and integer scales at once they would
      share indices; the first fp8 index lies past whichever family is longer. */
  lemma ScaleFamiliesStartAfterFinished(p: MixtureOfExpertsPlugin)
    ensures UseDeepSeekWithNativeFp8Weights(p) ==> GetExpertDeepseekScale1Index(p) == GetFinishedTensorIndex(p) + 1
    ensures HasExpertIntQuantScales(p) ==> GetExpertIntQuantScale1Index(p) == GetFinishedTensorIndex(p) + 1
    ensures (UseDeepSeekWithNativeFp8Weights(p) && HasExpertIntQuantScales(p))
              ==> GetExpertDeepseekScale1Index(p) == GetExpertIntQuantScale1Index(p)
    ensures HasExpertFp8QuantScales(p) ==>
              GetExpertFP8Dequant1Index(p) > GetExpertIntQuantScale2Index(p)
              && GetExpertFP8Dequant1Index(p) > GetExpertDeepseekScale2Index(p)
  {
  }

  /** The gated LoRA inputs take indices only for a gated activation with LoRA;
      the host context lengths only with padding removed and LoRA. */
  lemma ConditionalLoraIndices(p: MixtureOfExpertsPlugin)
    ensures GetLoraGatedWeightPtrsIndex(p) == GetLoraFC2RanksIndex(p) + 1 <==> HasLora(p) && p.gatedActivation
    ensures GetLoraGatedRanksIndex(p) - GetLoraFC2RanksIndex(p) == (if HasLora(p) && p.gatedActivation then 2 else 0)
    ensures GetHostContextLengthIndex(p) == GetHostRequestTypeIndex(p) + 1 <==> p.removeInputPadding && HasLora(p)
  {
  }

  /** The number of inputs is the number of present inputs. */
  lemma LayoutLength(p: MixtureOfExpertsPlugin)
    requires OneScaleFamily(p)
    ensures |Layout(p)| == GetNbInputs(p)
  {
    StageLengths(p);
  }

  /** When both scale families are in use, the chain gives four scale inputs
      only two indices, so getNbInputs falls two short of the present inputs. */
  lemma BothScaleFamiliesUndercount(p: MixtureOfExpertsPlugin)
    requires UseDeepSeekWithNativeFp8Weights(p) && HasExpertIntQuantScales(p)
    ensures |Layout(p)| == GetNbInputs(p) + 2
  {
    StageLengths(p);
  }

  /** Each stage of the layout extends the previous one. */
  lemma StagesArePrefixes(p: MixtureOfExpertsPlugin)
    ensures LayoutThroughFinished(p) <= LayoutThroughScales(p) <= LayoutThroughFp8(p)
    ensures LayoutThroughFp8(p) <= LayoutThroughLora(p) <= Layout(p)
  {
  }

  predicate AllPresent(p: MixtureOfExpertsPlugin, s: seq<MoeInput>)
  {
    forall i :: 0 <= i < |s| ==> Present(p, s[i])
  }

  lemma AllPresentConcat(p: MixtureOfExpertsPlugin, a: seq<MoeInput>, b: seq<MoeInput>)
    requires AllPresent(p, a) && AllPresent(p, b)
    ensures AllPresent(p, a + b)
  {
    forall i | 0 <= i < |a + b|
      ensures Present(p, (a + b)[i])
    {
      if i >= |a| {
        assert (a + b)[i] == b[i - |a|];
      }
    }
  }

  lemma FinishedStagePresent(p: MixtureOfExpertsPlugin)
    ensures AllPresent(p, LayoutThroughFinished(p))
  {
    var fixed := [InputTensor, RoutingTensor, ExpertWeights1, ExpertWeights2];
    AllPresentConcat(p, fixed, If(HasBias(p), [ExpertBias1, ExpertBias2]));
    AllPresentConcat(p, fixed + If(HasBias(p), [ExpertBias1, ExpertBias2]),
                     If(HasFinishedTensor(p), [FinishedTensor]));
  }

  lemma ScalesStagePresent(p: MixtureOfExpertsPlugin)
    ensures AllPresent(p, LayoutThroughScales(p))
  {
    var a := LayoutThroughFinished(p);
    var ds := If(UseDeepSeekWithNativeFp8Weights(p), [ExpertDeepseekScale1, ExpertDeepseekScale2]);
    FinishedStagePresent(p);
    AllPresentConcat(p, a, ds);
    AllPresentConcat(p, a + ds, If(HasExpertIntQuantScales(p), [ExpertIntQuantScale1, ExpertIntQuantScale2]));
  }

  lemma Fp8StagePresent(p: MixtureOfExpertsPlugin)
    ensures AllPresent(p, LayoutThroughFp8(p))
  {
    var b := LayoutThroughScales(p);
    var q := If(HasExpertFp8QuantScales(p), [ExpertFP8Dequant1, ExpertFP8Quant2, ExpertFP8Dequant2]);
    var f := If(HasExpertFp8FinalQuantScales(p), [ExpertFP8QuantFinal]);
    ScalesStagePresent(p);
    AllPresentConcat(p, b, q);
    AllPresentConcat(p, b + q, f);
    AllPresentConcat(p, b + q + f, If(HasExpertFp8QuantScales(p) && HasLora(p), [InputFP8Dequant]));
  }

  lemma LoraStagePresent(p: MixtureOfExpertsPlugin)
    ensures AllPresent(p, LayoutThroughLora(p))
  {
    var c := LayoutThroughFp8(p);
    var l := If(HasLora(p), [LoraFC1WeightPtrs, LoraFC1Ranks, LoraFC2WeightPtrs, LoraFC2Ranks]);
    Fp8StagePresent(p);
    AllPresentConcat(p, c, l);
    AllPresentConcat(p, c + l, If(HasGatedLoraWeightsAndRanks(p), [LoraGatedWeightPtrs, LoraGatedRanks]));
  }

  /** Everything in the layout is present. */
  lemma LayoutOnlyPresent(p: MixtureOfExpertsPlugin, i: int)
    requires 0 <= i < |Layout(p)|
    ensures Present(p, Layout(p)[i])
  {
    var d := LayoutThroughLora(p);
    var r := If(HasLora(p), [HostRequestType]);
    var h := If(p.removeInputPadding && HasLora(p), [HostContextLength]);
    LoraStagePresent(p);
    AllPresentConcat(p, d, r);
    AllPresentConcat(p, d + r, h);
    AllPresentConcat(p, d + r + h, If(UseSideStream(p), [InputDummyTensor]));
  }

  lemma IndexInFinishedStage(p: MixtureOfExpertsPlugin, k: MoeInput)
    requires Present(p, k)
    requires k.InputTensor? || k.RoutingTensor? || k.ExpertWeights1? || k.ExpertWeights2?
          || k.ExpertBias1? || k.ExpertBias2? || k.FinishedTensor?
    ensures 0 <= InputIndex(p, k) < |LayoutThroughFinished(p)|
    ensures LayoutThroughFinished(p)[InputIndex(p, k)] == k
  {
  }

  lemma IndexInScalesStage(p: MixtureOfExpertsPlugin, k: MoeInput)
    requires Present(p, k) && OneScaleFamily(p)
    requires k.ExpertDeepseekScale1? || k.ExpertDeepseekScale2?
          || k.ExpertIntQuantScale1? || k.ExpertIntQuantScale2?
    ensures |LayoutThroughFinished(p)| <= InputIndex(p, k) < |LayoutThroughScales(p)|
    ensures LayoutThroughScales(p)[InputIndex(p, k)] == k
  {
    StageLengths(p);
  }

  lemma IndexInFp8Stage(p: MixtureOfExpertsPlugin, k: MoeInput)
    requires Present(p, k) && OneScaleFamily(p)
    requires k.ExpertFP8Dequant1? || k.ExpertFP8Quant2? || k.ExpertFP8Dequant2?
          || k.ExpertFP8QuantFinal? || k.InputFP8Dequant?
    ensures |LayoutThroughScales(p)| <= InputIndex(p, k) < |LayoutThroughFp8(p)|
    ensures LayoutThroughFp8(p)[InputIndex(p, k)] == k
  {
    StageLengths(p);
    var b := |LayoutThroughScales(p)|;
    assert GetExpertFP8Dequant1Index(p) == b - 1 + B2I(HasExpertFp8QuantScales(p));
  }

  lemma IndexInLoraStage(p: MixtureOfExpertsPlugin, k: MoeInput)
    requires Present(p, k) && OneScaleFamily(p)
    requires k.LoraFC1WeightPtrs? || k.LoraFC1Ranks? || k.LoraFC2WeightPtrs? || k.LoraFC2Ranks?
          || k.LoraGatedWeightPtrs? || k.LoraGatedRanks?
    ensures |LayoutThroughFp8(p)| <= InputIndex(p, k) < |LayoutThroughLora(p)|
    ensures LayoutThroughLora(p)[InputIndex(p, k)] == k
  {
    StageLengths(p);
  }

  lemma IndexInLastStage(p: MixtureOfExpertsPlugin, k: MoeInput)
    requires Present(p, k) && OneScaleFamily(p)
    requires k.HostRequestType? || k.HostContextLength? || k.InputDummyTensor?
    ensures |LayoutThroughLora(p)| <= InputIndex(p, k) < |Layout(p)|
    ensures Layout(p)[InputIndex(p, k)] == k
  {
    StageLengths(p);
  }

  /** When only one scale family is in use, the getter of every present
      input gives exactly its position in the layout. */
  lemma LayoutIndex(p: MixtureOfExpertsPlugin, k: MoeInput)
    requires Present(p, k)
    requires OneScaleFamily(p)
    ensures 0 <= InputIndex(p, k) < |Layout(p)|
    ensures Layout(p)[InputIndex(p, k)] == k
  {
    StagesArePrefixes(p);
    var i := InputIndex(p, k);
    if k.InputTensor? || k.RoutingTensor? || k.ExpertWeights1? || k.ExpertWeights2?
       || k.ExpertBias1? || k.ExpertBias2? || k.FinishedTensor? {
      IndexInFinishedStage(p, k);
      assert Layout(p)[i] == LayoutThroughFinished(p)[i];
    } else if k.ExpertDeepseekScale1? || k.ExpertDeepseekScale2?
       || k.ExpertIntQuantScale1? || k.ExpertIntQuantScale2? {
      IndexInScalesStage(p, k);
      assert Layout(p)[i] == LayoutThroughScales(p)[i];
    } else if k.ExpertFP8Dequant1? || k.ExpertFP8Quant2? || k.ExpertFP8Dequant2?
       || k.ExpertFP8QuantFinal? || k.InputFP8Dequant? {
      IndexInFp8Stage(p, k);
      assert Layout(p)[i] == LayoutThroughFp8(p)[i];
    } else if k.LoraFC1WeightPtrs? || k.LoraFC1Ranks? || k.LoraFC2WeightPtrs? || k.LoraFC2Ranks?
       || k.LoraGatedWeightPtrs? || k.LoraGatedRanks? {
      IndexInLoraStage(p, k);
      assert Layout(p)[i] == LayoutThroughLora(p)[i];
    } else {
      IndexInLastStage(p, k);
    }
  }

  /** Hence two different present inputs never share an index. */
  lemma IndicesDistinct(p: MixtureOfExpertsPlugin, k1: MoeInput, k2: MoeInput)
    requires Present(p, k1) && Present(p, k2) && k1 != k2
    requires OneScaleFamily(p)
    ensures InputIndex(p, k1) != InputIndex(p, k2)
  {
    LayoutIndex(p, k1);
    LayoutIndex(p, k2);
  }

  // ---------------------------------------------------------------------
  // GEMM profiler key
  // ---------------------------------------------------------------------

  /** A C++ int as its 32 bits (two's complement). */
  type Int32 = bv32

  /**
    A 64-bit word (int64_t or size_t) as its high and low halves, so that
    conversions between widths are exact selections of bits.
  */
  datatype Word64 = Word64(hi: bv32, lo: bv32)

  function Xor64(a: Word64, b: Word64): (r: Word64)
  {
    Word64(a.hi ^ b.hi, a.lo ^ b.lo)
  }

  datatype MoeParallelismConfig = MoeParallelismConfig(tpSize: Int32, tpRank: Int32, epSize: Int32, epRank: Int32)

  /** The profiler's GEMM key; the enum fields and QuantMode are given by their integer values. */
  datatype GemmIDMoe = GemmIDMoe(
    gemmIdx: Int32,
    numExperts: Int32,
    moeK: Int32,
    parallelismConfig: MoeParallelismConfig,
    hidden: Word64,           // int64_t
    inter: Word64,            // int64_t
    actfn: Int32,
    dtype: Int32,
    wdtype: Int32,
    quantMode: Int32,         // quant_mode.value()
    determinismMode: bool)

  /** operator==: every field is compared, including the determinism mode. */
  predicate GemmIDMoeEquals(a: GemmIDMoe, b: GemmIDMoe)
    ensures GemmIDMoeEquals(a, b) <==> a == b
  {
    b.gemmIdx == a.gemmIdx && b.numExperts == a.numExperts && b.moeK == a.moeK
    && b.parallelismConfig == a.parallelismConfig && b.hidden == a.hidden && b.inter == a.inter
    && b.actfn == a.actfn && b.dtype == a.dtype && b.wdtype == a.wdtype
    && b.quantMode == a.quantMode && b.determinismMode == a.determinismMode
  }

  /** An int64_t converted to int keeps its low 32 bits. */
  function TruncateToInt(w: Word64): Int32 { w.lo }

  /**
    std::hash<int> as libstdc++ defines it: the int converted to size_t,
    so a negative value is sign-extended to 64 bits.
  */
  function StdHashInt(x: Int32): (r: Word64)
    ensures r.lo == x
    ensures r.hi == 0 <==> x & 0x8000_0000 == 0
    ensures r.hi == 0xFFFF_FFFF <==> x & 0x8000_0000 != 0
  {
    Word64(if x & 0x8000_0000 != 0 then 0xFFFF_FFFF else 0, x)
  }

  /** GemmIDMoeHash: the xor of std::hash<int> of the fields, each cast to int first. */
  function GemmIDMoeHash(id: GemmIDMoe): Word64
  {
    var pc := id.parallelismConfig;
    Xor64(Xor64(Xor64(Xor64(Xor64(Xor64(Xor64(Xor64(Xor64(Xor64(Xor64(Xor64(
      StdHashInt(id.gemmIdx), StdHashInt(id.numExperts)), StdHashInt(id.moeK)),
      StdHashInt(pc.tpSize)), StdHashInt(pc.epSize)), StdHashInt(pc.tpRank)), StdHashInt(pc.epRank)),
      StdHashInt(TruncateToInt(id.hidden))), StdHashInt(TruncateToInt(id.inter))),
      StdHashInt(id.actfn)), StdHashInt(id.dtype)), StdHashInt(id.wdtype)), StdHashInt(id.quantMode))
  }

  /** std::hash<int> loses nothing: different ints hash differently. */
  lemma StdHashIntInjective(x: Int32, y: Int32)
    ensures StdHashInt(x) == StdHashInt(y) <==> x == y
  {
  }

  /** The hash agrees with operator==, as std::unordered_map requires. */
  lemma HashAgreesWithEquality(a: GemmIDMoe, b: GemmIDMoe)
    requires GemmIDMoeEquals(a, b)
    ensures GemmIDMoeHash(a) == GemmIDMoeHash(b)
  {
  }

  /** The determinism mode takes part in equality but not in the hash. */
  lemma HashIgnoresDeterminismMode(id: GemmIDMoe)
    ensures GemmIDMoeHash(id.(determinismMode := !id.determinismMode)) == GemmIDMoeHash(id)
    ensures !GemmIDMoeEquals(id.(determinismMode := !id.determinismMode), id)
  {
  }

  /** The int64 GEMM dimensions are truncated to int before hashing:
      keys that differ only in the high half of hidden or inter collide. */
  lemma HashTruncatesDimensions(id: GemmIDMoe, hiHidden: bv32, hiInter: bv32)
    ensures GemmIDMoeHash(id.(hidden := id.hidden.(hi := hiHidden), inter := id.inter.(hi := hiInter)))
            == GemmIDMoeHash(id)
  {
  }

  /** The xor is symmetric in the fields, so exchanging the tensor- and
      expert-parallel sizes gives a different key with the same hash. */
  lemma HashSymmetricInParallelSizes(id: GemmIDMoe)
    requires id.parallelismConfig.tpSize != id.parallelismConfig.epSize
    ensures var pc := id.parallelismConfig;
            var swapped := id.(parallelismConfig := pc.(tpSize := pc.epSize, epSize := pc.tpSize));
            !GemmIDMoeEquals(swapped, id) && GemmIDMoeHash(swapped) == GemmIDMoeHash(id)
  {
    var pc := id.parallelismConfig;
    var swapped := id.(parallelismConfig := pc.(tpSize := pc.epSize, epSize := pc.tpSize));
    var prefix := Xor64(Xor64(StdHashInt(id.gemmIdx), StdHashInt(id.numExperts)), StdHashInt(id.moeK));
    XorSwapAdjacent(prefix, StdHashInt(pc.tpSize), StdHashInt(pc.epSize));
  }

  lemma XorSwapAdjacent(x: Word64, a: Word64, b: Word64)
    ensures Xor64(Xor64(x, a), b) == Xor64(Xor64(x, b), a)
  {
  }
}
