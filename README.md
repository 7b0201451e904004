# Wine quality prediction service — a Dafny model

This project models the core of a small HTTP service. The service loads two
trained artifacts at start-up, a feature scaler and a binary classifier,
and serves two endpoints over them:

- `GET /health` reports whether both artifacts loaded without error.
- `POST /predict` takes a JSON object holding 11 physico-chemical wine
  features and answers with a "high" or "low" quality label. The label comes
  with optional class probabilities and echoes the input back.

The model covers:

- the fixed feature list and its table of advisory value ranges;
- the start-up load sequence (`_safe_load`, scaler first, then model), which
  records one diagnostic per failing artifact;
- the health report;
- the whole `predict` handler. Its early-return chain is modelled as a
  function from the loaded state and the request body to a response
  datatype, which carries the HTTP status.

Modules:

- `Wrappers`: `Option`, and `Attempt` (a value or a raised exception's message).
- `Seqs`: distinctness and the subsequence relation, with their lemmas.
- `PyJson`: the JSON values a request body can hold, and the Python
  operations the handler applies to them. These are truthiness, `key in v`
  and `v[key]`, each raising as CPython does on the wrong kind of value.
- `Features`: `FeatureNames` and `ValidRanges`.
- `Artifacts`:
  - the scaler and classifier as possibly-raising functions;
  - `SafeLoad`, and the load phase as a function;
  - class `Service`, whose fields are the module-level globals and whose
    method `LoadArtifacts` updates them in place;
  - `Health`.
- `Validation`: the reading of the body (`get_json(silent=True) or {}`), the
  missing-field comprehension, the float coercion and the echo of the input.
- `Prediction`: the response datatype, the probability and confidence step,
  and the handler (`Handle` for any feature list, `Predict` for the
  service's 11).
- `PredictionProperties`: what `predict` promises. This covers error
  precedence, the missing-field report, the absence of a range check, the
  best-effort probability step and the shape of a successful answer. Each
  property is proved for `Handle` over any feature list, then stated for
  `Predict`.

`Predict` and `Handle` state in their own contracts when they answer "not
loaded" and what a missing-field report carries; the rest of their
behaviour is stated by the lemmas of `PredictionProperties`.

The "not loaded" error text is the code's own, "Modelo o scaler no
cargados".

## Model

| member | source | states |
|---|---|---|
| Features.FeatureTableWellFormed | app.py:12-31 | there are 11 feature names; the range table has exactly one entry per name; every range has lower < upper |
| Features.FeatureNamesDistinct | app.py:12-17 | no feature name occurs twice |
| Features.UpperBoundsBelow300 | app.py:19-31 | every advisory upper bound is below 300 |
| Artifacts.SafeLoad | app.py:37-42 | exactly one of object and error is returned; the object is present iff the load succeeded and is the loaded value; the error is "<label>: <message>" and is truthy |
| Artifacts.LoadPhase | app.py:44-50 | each artifact is present iff its load succeeded, holding the loaded value; earlier diagnostics are kept as a prefix; exactly one entry is appended per failure, the scaler's first and the model's last |
| Artifacts.StartupDiagnostics | app.py:35-50 | from an empty diagnostics list: at most 2 entries; none iff both artifacts loaded; an artifact is absent iff an entry starting with its "scaler: " or "model: " prefix exists |
| Artifacts.Service.constructor | app.py:33-35 | both artifacts are absent and the diagnostics list is empty |
| Artifacts.Service.LoadArtifacts | app.py:44-50 | the new state is the load phase applied to the old diagnostics; the old diagnostics stay a prefix and grow by at most 2 |
| Artifacts.Start | app.py:33-50 | a fresh service whose state is the load phase run from empty globals, so `StartupDiagnostics` and `StartupHealth` describe it |
| Artifacts.Health | app.py:68-78 | the code is 200 iff the model and the scaler are loaded and there are no diagnostics, and 500 otherwise; the status is "healthy" exactly with 200 and "degraded" otherwise; the flags and the error list report the state |
| Artifacts.StartupHealth | app.py:44-50 | after the start-up load, health is 200 iff both artifact loads succeeded |
| PyJson.Contains | app.py:124 | `key in v` succeeds iff v is a dict, list or str; on a dict it is key membership |
| PyJson.GetItem | app.py:134 | `v[key]` yields a value iff v is a dict holding key, and then it is that entry |
| Validation.RequestData | app.py:123 | a missing, malformed or falsy body becomes `{}`; a truthy document is used as is |
| Validation.MissingFields | app.py:124 | the check raises iff some name is tested against a non-container, with the first test's error; otherwise the result holds exactly the names whose `in` test is false, as a subsequence of the names |
| Validation.AllMissingFromEmpty | app.py:123-124 | against `{}` every name is missing, in the given order |
| Validation.MissingFromObject | app.py:124 | for an object, the missing list is exactly the names absent from its keys, in feature order, with no duplicates |
| Validation.MissingIsUnique | app.py:124 | any ordered list of exactly the absent names is the reported missing list |
| Validation.CoerceFeatures | app.py:133-139 | the conversion succeeds iff every field converts; the row then has one value per name, in name order, each the conversion of that field |
| Validation.CoercionErrorIsFirstFailure | app.py:133-139 | a conversion error is the error of the first field, in name order, that fails, all earlier ones converting |
| Validation.EchoFeatures | app.py:179 | the echo succeeds iff every name can be subscripted; its keys are then exactly the names, each mapped to the body's value |
| Validation.EchoOfObject | app.py:179 | over an object holding every name, the echo maps exactly the names to the object's own unconverted values and drops every other key |
| Prediction.Quality.Text | app.py:169 | the quality string is "high" or "low", and "high" exactly for High |
| Prediction.PredictResponse.Status | app.py:121-183 | every answer is sent with 200, 400 or 500; 200 exactly for the answer without an `error` field; 400 exactly for missing fields and conversion errors |
| Prediction.Handle | app.py:114-183 | the handler answers "not loaded", carrying the diagnostics, iff an artifact is missing; a missing-field report carries the given feature order and range table |
| Prediction.Predict | app.py:114-183 | the same for the service's 11 features: a missing-field report carries `FEATURE_NAMES` and `VALID_RANGES` |
| Prediction.Probabilities | app.py:159-167 | both probabilities are set or neither is; they are set iff the classifier has predict_proba, the call does not raise and it returns at least 2 entries; they are entries 0 and 1 |
| Prediction.Confidence | app.py:170-172 | confidence is present iff both probabilities are; it is at least both and equal to one of them |
| Prediction.QualityOf | app.py:169 | the quality is High iff int(pred) == 1 |
| Prediction.Score | app.py:141-180 | scoring never answers 400 and never "not loaded" |
| Prediction.CheckBody | app.py:123-139 | the body checks stop only with a 400 or with the catch-all |
| PredictionProperties.NotLoadedFirst | app.py:116-121 | with an artifact missing, every body gets the same 500 "not loaded" answer carrying the diagnostics |
| PredictionProperties.NotLoadedExactlyFor | app.py:117-121 | the handler answers "not loaded" iff an artifact is missing |
| PredictionProperties.AbsentBodyReportsAllMissing | app.py:123-131 | a missing, malformed or falsy body gets 400 with all 11 names missing in feature order, plus the required order and the range table |
| PredictionProperties.AbsentBodyFor | app.py:123-131 | the same for any non-empty feature list |
| PredictionProperties.MissingBeforeCoercion | app.py:124-131 | an object lacking some feature gets 400 before any conversion; the missing list is exactly the absent features, in feature order, without duplicates, with the required order and the range table |
| PredictionProperties.MissingBeforeCoercionFor | app.py:124-131 | the same for any duplicate-free feature list |
| PredictionProperties.NothingMissing | app.py:124-125 | an object holding every name has an empty missing list |
| PredictionProperties.CoercionBeforeScaler | app.py:133-139 | with every feature present, a value float() rejects gets 400 before the scaler runs; the details are those of the first failing feature |
| PredictionProperties.CoercionBeforeScalerFor | app.py:133-139 | the same for any feature list |
| PredictionProperties.AllConvertFor | app.py:123-144 | when every field converts, the answer is the scoring of the converted row |
| PredictionProperties.NoRangeCheck | app.py:134-149 | when every feature converts, whatever its value, the answer is not 400; a failing scaler on that row gets 500 with its message, before the model runs |
| PredictionProperties.NoRangeCheckFor | app.py:134-149 | the same for any feature list |
| PredictionProperties.OutOfRangeIsScored | app.py:19-31 | a body whose 11 values all lie outside every advisory range is answered 200 by a scaler and a model that do not raise |
| PredictionProperties.SuccessfulPrediction | app.py:133-180 | converting features, a scaler and model that do not raise, and an int() that accepts the label give 200; quality is high iff the label is 1; the probabilities are those of the best-effort step; input_features maps exactly the 11 names to the body's values |
| PredictionProperties.SuccessfulPredictionFor | app.py:133-180 | the same for any non-empty feature list |
| PredictionProperties.ModelFailure | app.py:151-157 | a model that raises on the scaled row gets 500 "Model predict failed" with its message |
| PredictionProperties.ProbabilityIsBestEffort | app.py:159-172 | removing the predict_proba capability changes no status and no other field; only the three probability fields become null |
| PredictionProperties.ProbabilityIsBestEffortFor | app.py:159-172 | the same for any feature list |
| PredictionProperties.SuccessShape | app.py:169-180 | every 200 answer comes from an object body; it echoes exactly the 11 names with the body's values; confidence is present iff both probabilities are, and is then their maximum |
| PredictionProperties.SuccessShapeFor | app.py:169-180 | the same for any non-empty feature list |
| PredictionProperties.NonContainerBody | app.py:182-183 | a truthy body that is neither dict, list nor str gets 500 with the "is not iterable" TypeError text |
| PredictionProperties.ListOrStringBody | app.py:123-139 | a truthy list or str body is never scored; it gets 400, either missing fields or a conversion error |
| PredictionProperties.ListOrStringBodyFor | app.py:123-139 | the same for any non-empty feature list |
| PredictionProperties.HealthyServes | app.py:70-78 | a service whose health is 200 never answers "not loaded" |
| PredictionProperties.StartupHealthAgreesWithPredict | app.py:117-121 | after the start-up load, health is 500 iff predict answers "not loaded" |

## Left out

- Flask routing, `jsonify` and the HTML `/form` page: framework I/O. A response is a datatype with a status code. The JSON encoding of the response is not modelled.
- The constant endpoints `/`, `/example` and `/stats`. They are literal data. Only the feature count of `/stats` is covered, by `FeatureTableWellFormed`.
- `joblib.load`: a file is given as an `Attempt`, either the loaded object or a raised message. Unpickling itself, and a pickle that deserialises to `None`, are not modelled.
- The artifact paths and `os.getcwd()` are not modelled, and neither are the `cwd` and `base_dir` fields of the health report, which depend on the filesystem.
- Python's `float()` on a body value and `int()` on a predicted label. Both are abstract, possibly raising functions (`Coercions`).
- The sklearn and numpy calls (`reshape`, `transform`, `predict(...)[0]`, `predict_proba(...)[0]`). They are uninterpreted, possibly raising functions on a single row.
- Shape errors as a separate kind. They are included only in "may raise".
- Prediction.Probabilities: `float(proba[i])` is taken as the identity on reals, so it never raises. In the source, a `float(proba[1])` that raises after `float(proba[0])` succeeded leaves `probability_low` set, `probability_high` null and `confidence` null; the model's "both or neither" (here and in `SuccessShape`) does not cover that case. Floating point, NaN and infinities are not modelled.
- Features.ValidRanges: the range bounds are exact decimals, not IEEE doubles.
- PyJson.GetItem: the KeyError text is the key between single quotes, which is CPython's `repr` only for keys without quotes, backslashes or control characters; other keys would be rendered differently. From `predict` this text is never reached, because the missing-field check runs first. The other `in` and subscript error texts follow CPython 3.12. Lists and strings are searched exactly. Number keys in JSON objects do not arise, since JSON object keys are strings.
- The first line of the source reads `ffrom flask import ...`, which would not import. The model covers the program the remaining lines evidently describe.
- Concurrency: the loaded state is read-only after start-up, so each request is a pure function of it.
