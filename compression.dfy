/** The request and response schemas of the compressor client and the
    validation that runs when a request is built, before anything is sent
    to the remote compression service.

    Building a schema value applies the field defaults, checks the field
    bounds and then runs the schema's root validator; a validator either
    fails or hands the field values back unchanged. */
module CompressionSchemas {
  import opened Wrappers

  // ---------------------------------------------------------------------
  // Constants
  // ---------------------------------------------------------------------

  /** Recommendation method names the ratio validator singles out. */
  const SlampMethod: string := "slamp"
  const VbmfMethod: string := "vbmf"

  /** The messages of the two ratio assertions, as the source words them. */
  const SlampRangeMessage: string := "The ratio range for SLAMP is 0 < ratio < = 1."
  const VbmfRangeMessage: string := "The ratio range for VBMF is -1 <= ratio <= 1."

  /** The name of the bounded field of an auto-compression request. */
  const RatioField: string := "recommendation_ratio"

  /** The options a compression request carries when none are given. */
  const DefaultOptions: map<string, string> := map["policy" := "average"]

  // ---------------------------------------------------------------------
  // Data model
  // ---------------------------------------------------------------------

  /** One compression parameter of a layer; the source allows any value. */
  datatype ParamValue = IntValue(i: int) | RealValue(x: real) | TextValue(s: string)

  datatype CreateCompressionRequest = CreateCompressionRequest(
    modelId: string,
    modelName: string,
    description: string,
    compressionMethod: string)

  datatype AvailableLayerBase = AvailableLayerBase(name: string, values: seq<ParamValue>)

  /** A compressible layer: the base fields plus the selection flag and the
      channel information. */
  datatype AvailableLayer = AvailableLayer(
    name: string,
    values: seq<ParamValue>,
    use: bool,
    channels: seq<int>)
  {
    /** The layer seen as its base schema. */
    function Base(): AvailableLayerBase {
      AvailableLayerBase(name, values)
    }
  }

  datatype CompressionResponse = CompressionResponse(
    newModelId: string,
    compressionId: string,
    compressionMethod: string,
    availableLayers: seq<AvailableLayer>)

  datatype RecommendationRequest = RecommendationRequest(
    modelId: string,
    compressionId: string,
    recommendationMethod: string,
    recommendationRatio: real)

  datatype RecommendationInfo = RecommendationInfo(name: string, values: seq<ParamValue>)

  datatype RecommendationResponse = RecommendationResponse(recommendedLayers: seq<RecommendationInfo>)

  datatype CompressionRequest = CompressionRequest(
    compressionId: string,
    compressionMethod: string,
    layers: seq<AvailableLayer>,
    options: map<string, string>,
    compressedModelId: string)

  datatype AutoCompressionRequest = AutoCompressionRequest(
    modelId: string,
    modelName: string,
    description: string,
    recommendationRatio: real,
    savePath: string)

  /** The source spells this schema `GetAvailableLayersReponse`. */
  datatype GetAvailableLayersResponse = GetAvailableLayersResponse(
    compressionMethod: string,
    availableLayers: seq<AvailableLayer>)

  /** Why building a request failed. */
  datatype ValidationError =
    | RatioOutOfRange(message: string)             // a ratio assertion of the root validator
    | NotGreaterThan(field: string, limit: real)   // a `gt` field bound
    | NotLessOrEqual(field: string, limit: real)   // an `le` field bound
    | ParamsRejected(compressionMethod: string)    // the compression-parameter check raised

  // ---------------------------------------------------------------------
  // Constructors with defaults (a field argument left out is None)
  // ---------------------------------------------------------------------

  function NewCreateCompressionRequest(
    modelId: string, modelName: string, description: Option<string>, compressionMethod: string
  ): CreateCompressionRequest
  {
    CreateCompressionRequest(modelId, modelName, description.GetOr(""), compressionMethod)
  }

  function NewAvailableLayerBase(name: string, values: Option<seq<ParamValue>>): AvailableLayerBase {
    AvailableLayerBase(name, values.GetOr([]))
  }

  function NewAvailableLayer(
    name: string, values: Option<seq<ParamValue>>, use: Option<bool>, channels: Option<seq<int>>
  ): AvailableLayer
  {
    AvailableLayer(name, values.GetOr([]), use.GetOr(false), channels.GetOr([]))
  }

  function NewCompressionResponse(
    newModelId: string, compressionId: string, compressionMethod: string,
    availableLayers: Option<seq<AvailableLayer>>
  ): CompressionResponse
  {
    CompressionResponse(newModelId, compressionId, compressionMethod, availableLayers.GetOr([]))
  }

  function NewRecommendationResponse(recommendedLayers: Option<seq<RecommendationInfo>>): RecommendationResponse {
    RecommendationResponse(recommendedLayers.GetOr([]))
  }

  function NewGetAvailableLayersResponse(
    compressionMethod: string, availableLayers: Option<seq<AvailableLayer>>
  ): GetAvailableLayersResponse
  {
    GetAvailableLayersResponse(compressionMethod, availableLayers.GetOr([]))
  }

  lemma CreateCompressionRequestDefaults(modelId: string, modelName: string, compressionMethod: string, d: string)
    ensures NewCreateCompressionRequest(modelId, modelName, None, compressionMethod).description == ""
    ensures NewCreateCompressionRequest(modelId, modelName, Some(d), compressionMethod).description == d
  {
  }

  lemma AvailableLayerDefaults(name: string)
    ensures NewAvailableLayerBase(name, None).values == []
    ensures var l := NewAvailableLayer(name, None, None, None);
      l.name == name && l.values == [] && !l.use && l.channels == []
    ensures NewAvailableLayer(name, None, None, None).Base() == NewAvailableLayerBase(name, None)
  {
  }

  lemma ResponseDefaults(newModelId: string, compressionId: string, compressionMethod: string)
    ensures NewCompressionResponse(newModelId, compressionId, compressionMethod, None).availableLayers == []
    ensures NewRecommendationResponse(None).recommendedLayers == []
    ensures NewGetAvailableLayersResponse(compressionMethod, None).availableLayers == []
  {
  }

  // ---------------------------------------------------------------------
  // Ratio ranges: the per-method table
  // ---------------------------------------------------------------------

  /** A real interval whose ends are each open or closed. */
  datatype Interval = Interval(lo: real, loClosed: bool, hi: real, hiClosed: bool) {
    predicate Contains(x: real) {
      (if loClosed then lo <= x else lo < x) && (if hiClosed then x <= hi else x < hi)
    }
  }

  const SlampRange: Interval := Interval(0.0, false, 1.0, true)
  const VbmfRange: Interval := Interval(-1.0, true, 1.0, true)

  /** The range a method's ratio must lie in; None when the method puts no
      constraint on the ratio. */
  function RatioRange(methodName: string): Option<Interval> {
    if methodName == SlampMethod then Some(SlampRange)
    else if methodName == VbmfMethod then Some(VbmfRange)
    else None
  }

  /** The ratios a recommendation request may carry under `methodName`. */
  predicate RatioAccepted(methodName: string, ratio: real) {
    match RatioRange(methodName)
    case None => true
    case Some(range) => range.Contains(ratio)
  }

  // ---------------------------------------------------------------------
  // RecommendationRequest
  // ---------------------------------------------------------------------

  /** The root validator of a recommendation request: the `if/elif` on the
      method name, each branch asserting the ratio's range. It passes
      exactly the ratios the per-method table accepts, and a failure
      carries the message of the method's assertion. */
  function ValidateRatio(methodName: string, ratio: real): (o: Outcome<string>)
    ensures o.Pass? <==> RatioAccepted(methodName, ratio)
    ensures o.Fail? ==> RatioRange(methodName).Some?
    ensures o.Fail? ==> o.error == if methodName == SlampMethod then SlampRangeMessage else VbmfRangeMessage
  {
    if methodName in [SlampMethod] then
      if 0.0 < ratio <= 1.0 then Pass else Fail(SlampRangeMessage)
    else if methodName in [VbmfMethod] then
      if -1.0 <= ratio <= 1.0 then Pass else Fail(VbmfRangeMessage)
    else
      Pass
  }

  /** Building a recommendation request: it succeeds exactly when the ratio
      lies in the method's range, and then holds the given fields
      unchanged. */
  function NewRecommendationRequest(
    modelId: string, compressionId: string, methodName: string, ratio: real
  ): (v: Result<RecommendationRequest, ValidationError>)
    ensures v.Success? <==> RatioAccepted(methodName, ratio)
    ensures v.Success? ==> v.value == RecommendationRequest(modelId, compressionId, methodName, ratio)
    ensures v.Failure? ==> methodName == SlampMethod || methodName == VbmfMethod
    ensures v.Failure? ==>
      v.error == RatioOutOfRange(if methodName == SlampMethod then SlampRangeMessage else VbmfRangeMessage)
  {
    var values := RecommendationRequest(modelId, compressionId, methodName, ratio);
    match ValidateRatio(values.recommendationMethod, values.recommendationRatio)
    case Pass => Success(values)
    case Fail(message) => Failure(RatioOutOfRange(message))
  }

  /** Under SLAMP a request is accepted exactly for 0 < ratio <= 1; 0 and
      1.5 are rejected with the SLAMP message. */
  lemma SlampAcceptsExactly(modelId: string, compressionId: string, ratio: real)
    ensures NewRecommendationRequest(modelId, compressionId, SlampMethod, ratio).Success? <==> 0.0 < ratio <= 1.0
    ensures NewRecommendationRequest(modelId, compressionId, SlampMethod, 0.0) == Failure(RatioOutOfRange(SlampRangeMessage))
    ensures NewRecommendationRequest(modelId, compressionId, SlampMethod, 1.5) == Failure(RatioOutOfRange(SlampRangeMessage))
  {
  }

  /** Under VBMF a request is accepted exactly for -1 <= ratio <= 1; -1.5 is
      rejected with the VBMF message, while -1, 0 and 1 are accepted. */
  lemma VbmfAcceptsExactly(modelId: string, compressionId: string, ratio: real)
    ensures NewRecommendationRequest(modelId, compressionId, VbmfMethod, ratio).Success? <==> -1.0 <= ratio <= 1.0
    ensures NewRecommendationRequest(modelId, compressionId, VbmfMethod, -1.5) == Failure(RatioOutOfRange(VbmfRangeMessage))
    ensures NewRecommendationRequest(modelId, compressionId, VbmfMethod, -1.0).Success?
    ensures NewRecommendationRequest(modelId, compressionId, VbmfMethod, 0.0).Success?
    ensures NewRecommendationRequest(modelId, compressionId, VbmfMethod, 1.0).Success?
  {
  }

  /** Any other method places no constraint on the ratio. */
  lemma OtherMethodsAcceptAnyRatio(modelId: string, compressionId: string, methodName: string, ratio: real)
    requires methodName != SlampMethod && methodName != VbmfMethod
    ensures NewRecommendationRequest(modelId, compressionId, methodName, ratio)
      == Success(RecommendationRequest(modelId, compressionId, methodName, ratio))
  {
  }

  /** Every ratio SLAMP accepts VBMF accepts too, and some ratio VBMF
      accepts SLAMP rejects, so SLAMP's range is strictly the narrower. */
  lemma SlampStrictlyNarrowerThanVbmf()
    ensures forall ratio :: RatioAccepted(SlampMethod, ratio) ==> RatioAccepted(VbmfMethod, ratio)
    ensures exists ratio :: RatioAccepted(VbmfMethod, ratio) && !RatioAccepted(SlampMethod, ratio)
  {
    assert RatioAccepted(VbmfMethod, 0.0) && !RatioAccepted(SlampMethod, 0.0);
  }

  /** The ratio rule never makes a method unusable: under every method
      name some ratio is accepted. */
  lemma EveryMethodAcceptsSomeRatio(methodName: string)
    ensures exists ratio :: RatioAccepted(methodName, ratio)
  {
    assert RatioAccepted(methodName, 1.0);
  }

  /** Rebuilding an accepted recommendation request from its own fields
      gives the same request: validation is a pure, idempotent check. */
  lemma RecommendationRevalidationIdempotent(
    modelId: string, compressionId: string, methodName: string, ratio: real)
    requires NewRecommendationRequest(modelId, compressionId, methodName, ratio).Success?
    ensures var req := NewRecommendationRequest(modelId, compressionId, methodName, ratio).value;
      NewRecommendationRequest(req.modelId, req.compressionId, req.recommendationMethod, req.recommendationRatio)
        == Success(req)
  {
  }

  // ---------------------------------------------------------------------
  // CompressionRequest
  // ---------------------------------------------------------------------

  /** The root validator of a compression request: it hands the method and
      the layers to the compression-parameter check `paramsOk` and passes
      exactly when that check accepts them. */
  function ValidateCompressionParams(
    values: CompressionRequest, paramsOk: (string, seq<AvailableLayer>) -> bool
  ): (o: Outcome<ValidationError>)
    ensures o.Pass? <==> paramsOk(values.compressionMethod, values.layers)
    ensures o.Fail? ==> o.error == ParamsRejected(values.compressionMethod)
  {
    if paramsOk(values.compressionMethod, values.layers) then Pass
    else Fail(ParamsRejected(values.compressionMethod))
  }

  /** Building a compression request: `layers` defaults to no layers and
      `options` to the "average" policy; the request is accepted exactly
      when the parameter check accepts its method and layers, and then
      holds the fields unchanged. */
  function NewCompressionRequest(
    compressionId: string, compressionMethod: string,
    layers: Option<seq<AvailableLayer>>, options: Option<map<string, string>>,
    compressedModelId: string, paramsOk: (string, seq<AvailableLayer>) -> bool
  ): (v: Result<CompressionRequest, ValidationError>)
    ensures v.Success? <==> paramsOk(compressionMethod, layers.GetOr([]))
    ensures v.Success? ==>
      && v.value.compressionId == compressionId
      && v.value.compressionMethod == compressionMethod
      && v.value.layers == layers.GetOr([])
      && v.value.options == options.GetOr(DefaultOptions)
      && v.value.compressedModelId == compressedModelId
    ensures v.Failure? ==> v.error == ParamsRejected(compressionMethod)
  {
    var values := CompressionRequest(
      compressionId, compressionMethod, layers.GetOr([]), options.GetOr(DefaultOptions), compressedModelId);
    match ValidateCompressionParams(values, paramsOk)
    case Pass => Success(values)
    case Fail(e) => Failure(e)
  }

  /** With `layers` and `options` left out, the request is accepted exactly
      when the parameter check accepts the method with no layers, and then
      carries no layers and the "average" policy. */
  lemma CompressionRequestDefaults(
    compressionId: string, compressionMethod: string, compressedModelId: string,
    paramsOk: (string, seq<AvailableLayer>) -> bool)
    ensures var v := NewCompressionRequest(compressionId, compressionMethod, None, None, compressedModelId, paramsOk);
      (v.Success? <==> paramsOk(compressionMethod, []))
      && (v.Success? ==> v.value.layers == [] && v.value.options == map["policy" := "average"])
  {
  }

  /** Rebuilding an accepted compression request from its own fields gives
      the same request. */
  lemma CompressionRevalidationIdempotent(
    compressionId: string, compressionMethod: string,
    layers: Option<seq<AvailableLayer>>, options: Option<map<string, string>>,
    compressedModelId: string, paramsOk: (string, seq<AvailableLayer>) -> bool)
    requires NewCompressionRequest(compressionId, compressionMethod, layers, options, compressedModelId, paramsOk).Success?
    ensures var req := NewCompressionRequest(compressionId, compressionMethod, layers, options, compressedModelId, paramsOk).value;
      NewCompressionRequest(req.compressionId, req.compressionMethod, Some(req.layers), Some(req.options),
                            req.compressedModelId, paramsOk) == Success(req)
  {
  }

  // ---------------------------------------------------------------------
  // AutoCompressionRequest
  // ---------------------------------------------------------------------

  /** Building an auto-compression request: `description` defaults to the
      empty string and the ratio field is bounded by `gt=0` then `le=1`.
      It succeeds exactly for 0 < ratio <= 1, whatever the other fields;
      otherwise it names the bound that failed. */
  function NewAutoCompressionRequest(
    modelId: string, modelName: string, description: Option<string>, ratio: real, savePath: string
  ): (v: Result<AutoCompressionRequest, ValidationError>)
    ensures v.Success? <==> 0.0 < ratio <= 1.0
    ensures v.Success? ==> v.value == AutoCompressionRequest(modelId, modelName, description.GetOr(""), ratio, savePath)
    ensures ratio <= 0.0 ==> v == Failure(NotGreaterThan(RatioField, 0.0))
    ensures 1.0 < ratio ==> v == Failure(NotLessOrEqual(RatioField, 1.0))
  {
    if !(ratio > 0.0) then Failure(NotGreaterThan(RatioField, 0.0))
    else if !(ratio <= 1.0) then Failure(NotLessOrEqual(RatioField, 1.0))
    else Success(AutoCompressionRequest(modelId, modelName, description.GetOr(""), ratio, savePath))
  }

  /** The auto-compression bound is the SLAMP range, applied with no
      method at all; a left-out description is empty. */
  lemma AutoCompressionBoundIsSlampRange(
    modelId: string, modelName: string, ratio: real, savePath: string)
    ensures NewAutoCompressionRequest(modelId, modelName, None, ratio, savePath).Success?
      <==> RatioAccepted(SlampMethod, ratio)
    ensures NewAutoCompressionRequest(modelId, modelName, None, ratio, savePath).Success? ==>
      NewAutoCompressionRequest(modelId, modelName, None, ratio, savePath).value.description == ""
  {
  }
}
