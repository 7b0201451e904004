/** What `POST /predict` promises: the order in which its checks run, the
    shape of its missing-field report, its permissiveness about ranges and
    the shape of a successful answer. Each property is proved for a handler
    over any feature list (the `...For` lemmas) and then stated for the
    service's own 11 features. */
module PredictionProperties {
  import opened Wrappers
  import opened Seqs
  import opened PyJson
  import opened Features
  import opened Artifacts
  import opened Validation
  import opened Prediction

  /** Both artifacts are present. */
  predicate Loaded<L>(c: Config<L>) {
    c.model.Some? && c.scaler.Some?
  }

  /** Every name of `names` is a key of `fields` and converts to the value at
      the same position of `row`. */
  ghost predicate Converts<L>(names: seq<string>, fields: map<string, Json>, py: Coercions<L>, row: Row) {
    && |row| == |names|
    && forall i :: 0 <= i < |names| ==> names[i] in fields && py.toFloat(fields[names[i]]) == Ok(row[i])
  }

  /** The larger of two reals. */
  function Max(x: real, y: real): real {
    if x >= y then x else y
  }

  // ---------------------------------------------------------------------
  // The handler over any feature list.

  lemma NotLoadedExactlyFor<L>(names: seq<string>, ranges: map<string, Range>, c: Config<L>, body: Option<Json>, py: Coercions<L>)
    ensures Handle(names, ranges, c, body, py).NotLoaded? <==> !Loaded(c)
  {
  }

  lemma AbsentBodyFor<L>(names: seq<string>, ranges: map<string, Range>, c: Config<L>, body: Option<Json>, py: Coercions<L>)
    requires Loaded(c) && names != []
    requires body.None? || !Truthy(body.value)
    ensures Handle(names, ranges, c, body, py) == MissingFieldsError(names, names, ranges)
  {
    AllMissingFromEmpty(names);
  }

  lemma MissingBeforeCoercionFor<L>(names: seq<string>, ranges: map<string, Range>, c: Config<L>, fields: map<string, Json>, py: Coercions<L>, absent: string)
    requires Loaded(c) && Distinct(names)
    requires absent in names && absent !in fields
    ensures var r := Handle(names, ranges, c, Some(JObject(fields)), py);
      && r.MissingFieldsError?
      && (forall f :: f in r.missing <==> f in names && f !in fields)
      && IsSubsequence(r.missing, names)
      && Distinct(r.missing)
      && r.requiredOrder == names
      && r.validRanges == ranges
  {
    var data := JObject(fields);
    assert RequestData(Some(data)) == data;
    MissingFromObject(names, fields);
    var missing := MissingFields(names, data).value;
    assert absent in missing;
    assert Handle(names, ranges, c, Some(data), py) == MissingFieldsError(missing, names, ranges);
  }

  /** Over an object holding every name, nothing is missing. */
  lemma NothingMissing(names: seq<string>, fields: map<string, Json>)
    requires forall f :: f in names ==> f in fields
    ensures MissingFields(names, JObject(fields)) == Ok([])
  {
  }

  lemma CoercionBeforeScalerFor<L>(names: seq<string>, ranges: map<string, Range>, c: Config<L>, fields: map<string, Json>, py: Coercions<L>, bad: string)
    requires Loaded(c)
    requires forall f :: f in names ==> f in fields
    requires bad in names && py.toFloat(fields[bad]).Raised?
    ensures var r := Handle(names, ranges, c, Some(JObject(fields)), py);
      && r.TypeConversionError?
      && exists i :: 0 <= i < |names| && FirstFailure(names, JObject(fields), py.toFloat, i, r.details)
  {
    var data := JObject(fields);
    var i :| 0 <= i < |names| && names[i] == bad;
    assert fields != map[] by { assert bad in fields; }
    NothingMissing(names, fields);
    assert FieldAsFloat(data, names[i], py.toFloat).Raised?;
    CoercionErrorIsFirstFailure(names, data, py.toFloat);
  }

  lemma AllConvertFor<L>(names: seq<string>, ranges: map<string, Range>, c: Config<L>, fields: map<string, Json>, py: Coercions<L>, row: Row)
    requires Loaded(c) && names != []
    requires Converts(names, fields, py, row)
    ensures Handle(names, ranges, c, Some(JObject(fields)), py) == Score(names, c.scaler.value, c.model.value, row, JObject(fields), py.toInt)
  {
    var data := JObject(fields);
    assert fields != map[] by { assert names[0] in fields; }
    assert forall f :: f in names ==> f in fields;
    NothingMissing(names, fields);
    assert forall i :: 0 <= i < |names| ==> FieldAsFloat(data, names[i], py.toFloat) == Ok(row[i]);
    assert CoerceFeatures(names, data, py.toFloat).value == row;
  }

  lemma NoRangeCheckFor<L>(names: seq<string>, ranges: map<string, Range>, c: Config<L>, fields: map<string, Json>, py: Coercions<L>, row: Row)
    requires Loaded(c) && names != []
    requires Converts(names, fields, py, row)
    ensures var r := Handle(names, ranges, c, Some(JObject(fields)), py);
      && r.Status() != 400
      && (c.scaler.value.transform(row).Raised? ==> r == ScalerTransformFailed(c.scaler.value.transform(row).message))
      && (c.scaler.value.transform(row).Ok? ==> !r.ScalerTransformFailed?)
  {
    AllConvertFor(names, ranges, c, fields, py, row);
  }

  lemma SuccessfulPredictionFor<L>(names: seq<string>, ranges: map<string, Range>, c: Config<L>, fields: map<string, Json>, py: Coercions<L>, row: Row, scaled: Row, pred: L, n: int)
    requires Loaded(c) && names != []
    requires Converts(names, fields, py, row)
    requires c.scaler.value.transform(row) == Ok(scaled)
    requires c.model.value.predict(scaled) == Ok(pred)
    requires py.toInt(pred) == Ok(n)
    ensures var r := Handle(names, ranges, c, Some(JObject(fields)), py);
      && r.Predicted?
      && (r.quality == High <==> n == 1)
      && (r.probabilityLow, r.probabilityHigh) == Probabilities(c.model.value, scaled)
      && r.inputFeatures.Keys == set f | f in names
      && (forall f :: f in r.inputFeatures ==> f in fields && r.inputFeatures[f] == fields[f])
  {
    AllConvertFor(names, ranges, c, fields, py, row);
    EchoOfObject(names, fields);
  }

  lemma ProbabilityIsBestEffortFor<L>(names: seq<string>, ranges: map<string, Range>, c: Config<L>, body: Option<Json>, py: Coercions<L>)
    requires c.model.Some?
    ensures var r := Handle(names, ranges, c, body, py);
      var r' := Handle(names, ranges, c.(model := Some(c.model.value.(predictProba := None))), body, py);
      && (r.Predicted? ==> r' == r.(probabilityLow := None, probabilityHigh := None, confidence := None))
      && (!r.Predicted? ==> r' == r)
  {
  }

  lemma SuccessShapeFor<L>(names: seq<string>, ranges: map<string, Range>, c: Config<L>, body: Option<Json>, py: Coercions<L>)
    requires names != []
    ensures var r := Handle(names, ranges, c, body, py);
      r.Predicted? ==>
        && body.Some? && body.value.JObject?
        && r.inputFeatures.Keys == set f | f in names
        && (forall f :: f in r.inputFeatures ==> f in body.value.fields && r.inputFeatures[f] == body.value.fields[f])
        && (r.probabilityLow.Some? <==> r.probabilityHigh.Some?)
        && (r.confidence.Some? <==> r.probabilityLow.Some? && r.probabilityHigh.Some?)
        && (r.confidence.Some? ==> r.confidence.value == Max(r.probabilityLow.value, r.probabilityHigh.value))
  {
    var r := Handle(names, ranges, c, body, py);
    if r.Predicted? {
      var data := RequestData(body);
      assert GetItem(data, names[0]).Ok?;
    }
  }

  lemma ListOrStringBodyFor<L>(names: seq<string>, ranges: map<string, Range>, c: Config<L>, v: Json, py: Coercions<L>)
    requires Loaded(c) && names != []
    requires Truthy(v) && (v.JArray? || v.JString?)
    ensures Handle(names, ranges, c, Some(v), py).MissingFieldsError? || Handle(names, ranges, c, Some(v), py).TypeConversionError?
  {
    var missing := MissingFields(names, v);
    if missing.value == [] {
      assert FieldAsFloat(v, names[0], py.toFloat).Raised?;
    }
  }

  // ---------------------------------------------------------------------
  // The service's handler, over its 11 features.

  /** A missing artifact is reported before the body is looked at: the answer
      is the same 500 for every body and every conversion. */
  lemma NotLoadedFirst<L>(c: Config<L>, body: Option<Json>, py: Coercions<L>)
    requires !Loaded(c)
    ensures Predict(c, body, py) == NotLoaded(c.loadErrors)
    ensures Predict(c, body, py).Status() == 500
  {
  }

  /** No body, a malformed body or a falsy document behaves as `{}`: all 11
      fields are reported missing, in canonical order. */
  lemma AbsentBodyReportsAllMissing<L>(c: Config<L>, body: Option<Json>, py: Coercions<L>)
    requires Loaded(c)
    requires body.None? || !Truthy(body.value)
    ensures Predict(c, body, py) == MissingFieldsError(FeatureNames, FeatureNames, ValidRanges)
    ensures Predict(c, body, py).Status() == 400
  {
    AbsentBodyFor(FeatureNames, ValidRanges, c, body, py);
  }

  /** An object body lacking some feature is answered 400 before any value is
      converted, whatever `float()` would do; the report lists exactly the
      absent features, in canonical order, each once. */
  lemma MissingBeforeCoercion<L>(c: Config<L>, fields: map<string, Json>, py: Coercions<L>, k: nat)
    requires Loaded(c)
    requires k < |FeatureNames| && FeatureNames[k] !in fields
    ensures var r := Predict(c, Some(JObject(fields)), py);
      && r.MissingFieldsError?
      && r.Status() == 400
      && (forall f :: f in r.missing <==> f in FeatureNames && f !in fields)
      && IsSubsequence(r.missing, FeatureNames)
      && Distinct(r.missing)
      && r.requiredOrder == FeatureNames
      && r.validRanges == ValidRanges
  {
    FeatureNamesDistinct();
    MissingBeforeCoercionFor(FeatureNames, ValidRanges, c, fields, py, FeatureNames[k]);
    assert Predict(c, Some(JObject(fields)), py) == Handle(FeatureNames, ValidRanges, c, Some(JObject(fields)), py);
  }

  /** With every feature present, a value that `float()` rejects is answered
      400 before the scaler runs, whatever the scaler and the model are; the
      details are those of the first such feature in canonical order. */
  lemma CoercionBeforeScaler<L>(c: Config<L>, fields: map<string, Json>, py: Coercions<L>, bad: string)
    requires Loaded(c)
    requires forall f :: f in FeatureNames ==> f in fields
    requires bad in FeatureNames && py.toFloat(fields[bad]).Raised?
    ensures var r := Predict(c, Some(JObject(fields)), py);
      && r.TypeConversionError?
      && r.Status() == 400
      && exists i :: 0 <= i < |FeatureNames| && FirstFailure(FeatureNames, JObject(fields), py.toFloat, i, r.details)
  {
    CoercionBeforeScalerFor(FeatureNames, ValidRanges, c, fields, py, bad);
  }

  /** No range check: when every feature converts, the scaler receives the
      converted row in canonical order, however far outside the advisory
      ranges its values are, and a failing scaler is answered 500 before the
      model runs. */
  lemma NoRangeCheck<L>(c: Config<L>, fields: map<string, Json>, py: Coercions<L>, row: Row)
    requires Loaded(c)
    requires Converts(FeatureNames, fields, py, row)
    ensures var r := Predict(c, Some(JObject(fields)), py);
      && r.Status() != 400
      && (c.scaler.value.transform(row).Raised? ==> r == ScalerTransformFailed(c.scaler.value.transform(row).message))
      && (c.scaler.value.transform(row).Ok? ==> !r.ScalerTransformFailed?)
  {
    NoRangeCheckFor(FeatureNames, ValidRanges, c, fields, py, row);
  }

  /** A request whose features all convert, scored by a scaler and a model
      that do not raise and a label that `int()` accepts, is answered 200:
      quality is high exactly when the label is 1, the probabilities are
      those of the best-effort step, and `input_features` maps exactly the
      11 feature names to the body's own values. */
  lemma SuccessfulPrediction<L>(c: Config<L>, fields: map<string, Json>, py: Coercions<L>, row: Row, scaled: Row, pred: L, n: int)
    requires Loaded(c)
    requires Converts(FeatureNames, fields, py, row)
    requires c.scaler.value.transform(row) == Ok(scaled)
    requires c.model.value.predict(scaled) == Ok(pred)
    requires py.toInt(pred) == Ok(n)
    ensures var r := Predict(c, Some(JObject(fields)), py);
      && r.Predicted?
      && r.Status() == 200
      && (r.quality == High <==> n == 1)
      && (r.probabilityLow, r.probabilityHigh) == Probabilities(c.model.value, scaled)
      && r.inputFeatures.Keys == set f | f in FeatureNames
      && (forall f :: f in r.inputFeatures ==> f in fields && r.inputFeatures[f] == fields[f])
  {
    SuccessfulPredictionFor(FeatureNames, ValidRanges, c, fields, py, row, scaled, pred, n);
  }

  /** A model that raises on the scaled row is answered 500 after the scaler. */
  lemma ModelFailure<L>(c: Config<L>, fields: map<string, Json>, py: Coercions<L>, row: Row, scaled: Row)
    requires Loaded(c)
    requires Converts(FeatureNames, fields, py, row)
    requires c.scaler.value.transform(row) == Ok(scaled)
    requires c.model.value.predict(scaled).Raised?
    ensures Predict(c, Some(JObject(fields)), py) == ModelPredictFailed(c.model.value.predict(scaled).message)
    ensures Predict(c, Some(JObject(fields)), py).Status() == 500
  {
    AllConvertFor(FeatureNames, ValidRanges, c, fields, py, row);
  }

  /** The probability step is best effort: removing the capability (so that
      it is never attempted) changes no status, no quality and no echoed
      input, only the three probability fields, which become null. */
  lemma ProbabilityIsBestEffort<L>(c: Config<L>, body: Option<Json>, py: Coercions<L>)
    requires c.model.Some?
    ensures var r := Predict(c, body, py);
      var r' := Predict(c.(model := Some(c.model.value.(predictProba := None))), body, py);
      && r.Status() == r'.Status()
      && (r.Predicted? ==> r' == r.(probabilityLow := None, probabilityHigh := None, confidence := None))
      && (!r.Predicted? ==> r' == r)
  {
    ProbabilityIsBestEffortFor(FeatureNames, ValidRanges, c, body, py);
  }

  /** Every successful answer comes from an object body; it echoes exactly
      the 11 feature names with the body's values, and its confidence is
      present exactly when both probabilities are, as the larger of them. */
  lemma SuccessShape<L>(c: Config<L>, body: Option<Json>, py: Coercions<L>)
    ensures var r := Predict(c, body, py);
      r.Predicted? ==>
        && body.Some? && body.value.JObject?
        && r.inputFeatures.Keys == set f | f in FeatureNames
        && (forall f :: f in r.inputFeatures ==> f in body.value.fields && r.inputFeatures[f] == body.value.fields[f])
        && (r.probabilityLow.Some? <==> r.probabilityHigh.Some?)
        && (r.confidence.Some? <==> r.probabilityLow.Some? && r.probabilityHigh.Some?)
        && (r.confidence.Some? ==> r.confidence.value == Max(r.probabilityLow.value, r.probabilityHigh.value))
  {
    SuccessShapeFor(FeatureNames, ValidRanges, c, body, py);
  }

  /** A truthy JSON document that is not a dict, list or str makes the first
      `in` test raise; the catch-all answers 500 with that exception's text. */
  lemma NonContainerBody<L>(c: Config<L>, v: Json, py: Coercions<L>)
    requires Loaded(c)
    requires Truthy(v) && !IsContainer(v)
    ensures Predict(c, Some(v), py) == InternalError("argument of type '" + TypeName(v) + "' is not iterable")
    ensures Predict(c, Some(v), py).Status() == 500
  {
  }

  /** A truthy list or str document is never scored: either some feature
      name is reported missing or subscripting it with a name raises, and
      both answers are 400. */
  lemma ListOrStringBody<L>(c: Config<L>, v: Json, py: Coercions<L>)
    requires Loaded(c)
    requires Truthy(v) && (v.JArray? || v.JString?)
    ensures Predict(c, Some(v), py).MissingFieldsError? || Predict(c, Some(v), py).TypeConversionError?
    ensures Predict(c, Some(v), py).Status() == 400
  {
    ListOrStringBodyFor(FeatureNames, ValidRanges, c, v, py);
  }

  /** A healthy service never answers "not loaded". */
  lemma HealthyServes<L>(c: Config<L>, body: Option<Json>, py: Coercions<L>)
    requires Health(c).code == 200
    ensures !Predict(c, body, py).NotLoaded?
  {
    NotLoadedExactlyFor(FeatureNames, ValidRanges, c, body, py);
  }

  /** After the start-up load, `/health` reports degraded exactly when
      `/predict` answers "not loaded". */
  lemma StartupHealthAgreesWithPredict<L>(scalerFile: Attempt<Scaler>, modelFile: Attempt<Classifier<L>>, body: Option<Json>, py: Coercions<L>)
    ensures var c := LoadPhase([], scalerFile, modelFile);
      Health(c).code == 500 <==> Predict(c, body, py).NotLoaded?
  {
    var c := LoadPhase([], scalerFile, modelFile);
    StartupDiagnostics(scalerFile, modelFile);
    NotLoadedExactlyFor(FeatureNames, ValidRanges, c, body, py);
  }

  /** A witness that ranges are not enforced: a body whose 11 values are
      all the same number `x` of at least 300, outside every advisory range,
      is scored and answered 200 by a scaler and a model that do not raise. */
  lemma OutOfRangeIsScored(x: real)
    requires x >= 300.0
    ensures forall f :: f in ValidRanges ==> !InRange(f, x)
    ensures var fields := map f | f in FeatureNames :: JFloat(x);
      var py := Coercions((v: Json) => if v.JFloat? then Ok(v.x) else Raised("unsupported"), (n: int) => Ok(n));
      var c := Config(Some(Scaler((r: Row) => Ok(r))), Some(Classifier((r: Row) => Ok(1), None)), []);
      Predict(c, Some(JObject(fields)), py).Status() == 200
  {
    UpperBoundsBelow300();
    var fields := map f | f in FeatureNames :: JFloat(x);
    var py := Coercions((v: Json) => if v.JFloat? then Ok(v.x) else Raised("unsupported"), (n: int) => Ok(n));
    var c := Config(Some(Scaler((r: Row) => Ok(r))), Some(Classifier((r: Row) => Ok(1), None)), []);
    var row := seq(|FeatureNames|, _ => x);
    forall i | 0 <= i < |FeatureNames|
      ensures FeatureNames[i] in fields && py.toFloat(fields[FeatureNames[i]]) == Ok(row[i])
    {
    }
    SuccessfulPrediction(c, fields, py, row, row, 1, 1);
  }
}
