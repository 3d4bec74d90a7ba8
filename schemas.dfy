/**
 * Request and response records of the prediction API (app/models/schemas.py).
 * A request record is obtained only through its Parse function, which applies
 * the same list-length constraints as the pydantic field declarations.
 */
module Schemas {
  import opened Common

  const IrisFeatureCount: nat := 4
  const DiabetesFeatureCount: nat := 10

  /** The two length errors pydantic reports for `min_length` / `max_length`. */
  datatype ValidationError =
    | TooShort(minLength: nat, actual: nat)
    | TooLong(maxLength: nat, actual: nat)

  /** The `min_length`/`max_length` constraint of a list field. */
  function CheckLength(features: Features, minLength: nat, maxLength: nat): (r: Result<Features, ValidationError>)
    ensures r.Ok? <==> minLength <= |features| <= maxLength
    ensures r.Ok? ==> r.value == features
    ensures |features| < minLength ==> r == Err(TooShort(minLength, |features|))
    ensures minLength <= |features| && maxLength < |features| ==> r == Err(TooLong(maxLength, |features|))
  {
    if |features| < minLength then Err(TooShort(minLength, |features|))
    else if maxLength < |features| then Err(TooLong(maxLength, |features|))
    else Ok(features)
  }

  datatype IrisRequest = IrisRequest(features: Features)

  datatype DiabetesRequest = DiabetesRequest(features: Features)

  /** Builds an IrisRequest: `features` must hold exactly four entries. */
  function ParseIrisRequest(features: Features): (r: Result<IrisRequest, ValidationError>)
    ensures r.Ok? <==> |features| == IrisFeatureCount
    ensures r.Ok? ==> r.value.features == features
    ensures |features| < IrisFeatureCount ==> r == Err(TooShort(IrisFeatureCount, |features|))
    ensures |features| > IrisFeatureCount ==> r == Err(TooLong(IrisFeatureCount, |features|))
  {
    match CheckLength(features, IrisFeatureCount, IrisFeatureCount)
    case Ok(fs) => Ok(IrisRequest(fs))
    case Err(e) => Err(e)
  }

  /** Builds a DiabetesRequest: `features` must hold exactly ten entries. */
  function ParseDiabetesRequest(features: Features): (r: Result<DiabetesRequest, ValidationError>)
    ensures r.Ok? <==> |features| == DiabetesFeatureCount
    ensures r.Ok? ==> r.value.features == features
    ensures |features| < DiabetesFeatureCount ==> r == Err(TooShort(DiabetesFeatureCount, |features|))
    ensures |features| > DiabetesFeatureCount ==> r == Err(TooLong(DiabetesFeatureCount, |features|))
  {
    match CheckLength(features, DiabetesFeatureCount, DiabetesFeatureCount)
    case Ok(fs) => Ok(DiabetesRequest(fs))
    case Err(e) => Err(e)
  }

  datatype BatchIrisPredictionRequest = BatchIrisPredictionRequest(samples: seq<Features>)

  datatype BatchDiabetesPredictionRequest = BatchDiabetesPredictionRequest(samples: seq<Features>)

  /** The batch field carries no length constraint: every list of lists is accepted unchanged. */
  function ParseBatchIrisRequest(samples: seq<Features>): (r: Result<BatchIrisPredictionRequest, ValidationError>)
    ensures r.Ok? && r.value.samples == samples
  {
    Ok(BatchIrisPredictionRequest(samples))
  }

  /** As for iris: neither the number of samples nor their widths are constrained. */
  function ParseBatchDiabetesRequest(samples: seq<Features>): (r: Result<BatchDiabetesPredictionRequest, ValidationError>)
    ensures r.Ok? && r.value.samples == samples
  {
    Ok(BatchDiabetesPredictionRequest(samples))
  }

  /** A batch of iris samples of any widths passes the schema, although a single
      request of one of those widths would be refused. */
  lemma BatchAcceptsWhatSingleRefuses(sample: Features)
    requires |sample| != IrisFeatureCount
    ensures ParseIrisRequest(sample).Err?
    ensures ParseBatchIrisRequest([sample]).Ok?
    ensures ParseBatchIrisRequest([sample]).value.samples[0] == sample
  {
  }

  /** Classification answer: label, class id and confidence are all required. */
  datatype IrisResponse = IrisResponse(prediction: string, predictionId: int, confidence: real)

  /** Regression answer: the prediction only; there is no confidence field. */
  datatype DiabetesResponse = DiabetesResponse(prediction: real)

  datatype PredictionResponse = IrisPrediction(iris: IrisResponse) | DiabetesPrediction(diabetes: DiabetesResponse)

  datatype BatchPredictionResponse = BatchPredictionResponse(predictions: seq<PredictionResponse>, batchSize: int)

  datatype HealthResponse = HealthResponse(status: string, modelLoaded: bool, featureCount: int, modelType: string)
}
