/** `POST /predict`: an early-return chain over the loaded artifacts and the
    request body, with a fixed precedence between its error responses. */
module Prediction {
  import opened Wrappers
  import opened Seqs
  import opened PyJson
  import opened Features
  import opened Artifacts
  import opened Validation

  /** The Python conversions the handler applies that are not modelled in
      detail: `float()` on a body value and `int()` on a predicted label. */
  datatype Coercions<-L> = Coercions(toFloat: Json -> Attempt<real>, toInt: L -> Attempt<int>)

  /** The predicted wine quality. */
  datatype Quality = Low | High {
    /** The `quality` string of the response: always "high" or "low". */
    function Text(): (s: string)
      ensures s == "high" || s == "low"
      ensures s == "high" <==> this == High
    {
      if High? then "high" else "low"
    }
  }

  /** Every response the handler can give. */
  datatype PredictResponse =
    | NotLoaded(loadErrors: seq<string>)
    | MissingFieldsError(missing: seq<string>, requiredOrder: seq<string>, validRanges: map<string, Range>)
    | TypeConversionError(details: string)
    | ScalerTransformFailed(details: string)
    | ModelPredictFailed(details: string)
    | InternalError(message: string)
    | Predicted(
        quality: Quality,
        probabilityLow: Option<real>,
        probabilityHigh: Option<real>,
        confidence: Option<real>,
        inputFeatures: map<string, Json>)
  {
    /** The HTTP status code the response is sent with: 200 for a prediction
        and only then without an `error` field, 400 for a client error, 500
        for every other failure. */
    function Status(): (r: int)
      ensures r == 200 || r == 400 || r == 500
      ensures r == 200 <==> Error().None?
      ensures r == 400 <==> MissingFieldsError? || TypeConversionError?
    {
      if Predicted? then 200
      else if MissingFieldsError? || TypeConversionError? then 400
      else 500
    }

    /** The `error` field of an error response. */
    function Error(): Option<string> {
      match this
      case NotLoaded(_) => Some("Modelo o scaler no cargados")
      case MissingFieldsError(_, _, _) => Some("Missing fields")
      case TypeConversionError(_) => Some("Type conversion error")
      case ScalerTransformFailed(_) => Some("Scaler transform failed")
      case ModelPredictFailed(_) => Some("Model predict failed")
      case InternalError(msg) => Some(msg)
      case Predicted(_, _, _, _, _) => None
    }
  }

  /** The best-effort probability step: `(prob_low, prob_high)`, both set only
      when the classifier can estimate probabilities, the estimate does not
      raise and it has at least two entries. */
  function Probabilities<L>(model: Classifier<L>, scaled: Row): (r: (Option<real>, Option<real>))
    ensures r.0.Some? <==> r.1.Some?
    ensures r.0.Some? <==> (model.predictProba.Some? && model.predictProba.value(scaled).Ok?
                            && |model.predictProba.value(scaled).value| >= 2)
    ensures r.0.Some? ==> (r.0.value == model.predictProba.value(scaled).value[0]
                        && r.1.value == model.predictProba.value(scaled).value[1])
  {
    match model.predictProba
    case None => (None, None)
    case Some(proba) =>
      match proba(scaled)
      case Raised(_) => (None, None)
      case Ok(p) => if |p| >= 2 then (Some(p[0]), Some(p[1])) else (None, None)
  }

  /** `confidence`: the larger probability, present only when both are. */
  function Confidence(low: Option<real>, high: Option<real>): (r: Option<real>)
    ensures r.Some? <==> low.Some? && high.Some?
    ensures r.Some? ==> r.value >= low.value && r.value >= high.value
    ensures r.Some? ==> r.value == low.value || r.value == high.value
  {
    if low.Some? && high.Some? then
      Some(if high.value > low.value then high.value else low.value)
    else None
  }

  /** The quality label of a prediction: high exactly when `int(pred) == 1`. */
  function QualityOf(n: int): (q: Quality)
    ensures q == High <==> n == 1
  {
    if n == 1 then High else Low
  }

  /** The steps after validation: scale the row, classify it, try the
      probabilities, map the label and echo the fields `names` of the body. */
  function Score<L>(names: seq<string>, scaler: Scaler, model: Classifier<L>, row: Row, data: Json, toInt: L -> Attempt<int>): (r: PredictResponse)
    ensures r.Status() != 400 && !r.NotLoaded?
  {
    match scaler.transform(row)
    case Raised(e) => ScalerTransformFailed(e)
    case Ok(scaled) =>
      match model.predict(scaled)
      case Raised(e) => ModelPredictFailed(e)
      case Ok(pred) =>
        var (low, high) := Probabilities(model, scaled);
        match toInt(pred)
        case Raised(e) => InternalError(e)
        case Ok(n) =>
          match EchoFeatures(names, data)
          case Raised(e) => InternalError(e)
          case Ok(echo) => Predicted(QualityOf(n), low, high, Confidence(low, high), echo)
  }

  /** The outcome of the body checks: an early answer, or the row to score. */
  datatype Checked = Reject(response: PredictResponse) | Accept(row: Row)

  /** The body checks, in order: every name present, then every value
      converted to a float; only client errors and the catch-all can stop them. */
  function CheckBody(names: seq<string>, ranges: map<string, Range>, data: Json, toFloat: Json -> Attempt<real>): (r: Checked)
    ensures r.Reject? ==> r.response.Status() == 400 || r.response.InternalError?
  {
    match MissingFields(names, data)
    case Raised(e) => Reject(InternalError(e))
    case Ok(missing) =>
      if missing != [] then Reject(MissingFieldsError(missing, names, ranges))
      else
        match CoerceFeatures(names, data, toFloat)
        case Raised(e) => Reject(TypeConversionError(e))
        case Ok(row) => Accept(row)
  }

  /** The handler for the feature list `names` and the range table `ranges`,
      given the loaded state `c` and the request body. */
  function Handle<L>(names: seq<string>, ranges: map<string, Range>, c: Config<L>, body: Option<Json>, py: Coercions<L>): (r: PredictResponse)
    ensures r.NotLoaded? <==> c.model.None? || c.scaler.None?
    ensures r.NotLoaded? ==> r.loadErrors == c.loadErrors
    ensures r.MissingFieldsError? ==> r.requiredOrder == names && r.validRanges == ranges
  {
    if c.model.None? || c.scaler.None? then NotLoaded(c.loadErrors)
    else
      var data := RequestData(body);
      match CheckBody(names, ranges, data, py.toFloat)
      case Reject(response) => response
      case Accept(row) => Score(names, c.scaler.value, c.model.value, row, data, py.toInt)
  }

  /** `predict`: the handler for the service's 11 features and their ranges. */
  function Predict<L>(c: Config<L>, body: Option<Json>, py: Coercions<L>): (r: PredictResponse)
    ensures r.NotLoaded? <==> c.model.None? || c.scaler.None?
    ensures r.NotLoaded? ==> r.loadErrors == c.loadErrors
    ensures r.MissingFieldsError? ==> r.requiredOrder == FeatureNames && r.validRanges == ValidRanges
  {
    Handle(FeatureNames, ValidRanges, c, body, py)
  }
}
