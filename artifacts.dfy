/** The two externally trained artifacts, their one-time load at start-up and
    the health report derived from the load outcome. */
module Artifacts {
  import opened Wrappers

  /** A single-row feature matrix (1 x n), as a sequence of its n columns. */
  type Row = seq<real>

  /** A fitted scaler; `transform` may raise (for example on a shape mismatch). */
  datatype Scaler = Scaler(transform: Row -> Attempt<Row>)

  /** A fitted classifier whose labels have type L. `predict` stands for
      `model.predict(Xs)[0]` and `predictProba`, present only when the classifier
      has that capability, for `model.predict_proba(Xs)[0]`; both may raise. */
  datatype Classifier<L> = Classifier(
    predict: Row -> Attempt<L>,
    predictProba: Option<Row -> Attempt<seq<real>>>)

  /** The process-wide state the handlers read: the artifacts that loaded
      and the load diagnostics. */
  datatype Config<L> = Config(
    scaler: Option<Scaler>,
    model: Option<Classifier<L>>,
    loadErrors: seq<string>)

  /** Python's truthiness of the error slot returned by the loader. */
  predicate IsTruthy(err: Option<string>) {
    err.Some? && err.value != ""
  }

  /** `_safe_load`: the loaded object and no error, or no object and the
      error text "<tag>: <message>". */
  function SafeLoad<T>(file: Attempt<T>, tag: string): (r: (Option<T>, Option<string>))
    ensures r.0.Some? <==> r.1.None?
    ensures r.0.Some? <==> file.Ok?
    ensures file.Ok? ==> r.0 == Some(file.value)
    ensures r.1.Some? ==> r.1.value == tag + ": " + file.message
    ensures r.1.Some? ==> IsTruthy(r.1)
  {
    match file
    case Ok(obj) => (Some(obj), None)
    case Raised(e) =>
      var msg := tag + ": " + e;
      assert msg[|tag|] == ':';
      (None, Some(msg))
  }

  /** The load sequence: scaler first, then model, each appending its error
      (if any) to the diagnostics found in `prior`. */
  function LoadPhase<L>(prior: seq<string>, scalerFile: Attempt<Scaler>, modelFile: Attempt<Classifier<L>>): (c: Config<L>)
    ensures c.scaler.Some? <==> scalerFile.Ok?
    ensures c.model.Some? <==> modelFile.Ok?
    ensures scalerFile.Ok? ==> c.scaler.value == scalerFile.value
    ensures modelFile.Ok? ==> c.model.value == modelFile.value
    ensures prior <= c.loadErrors
    ensures |c.loadErrors| == |prior| + (if scalerFile.Raised? then 1 else 0) + (if modelFile.Raised? then 1 else 0)
    ensures scalerFile.Raised? ==> c.loadErrors[|prior|] == "scaler: " + scalerFile.message
    ensures modelFile.Raised? ==> c.loadErrors[|c.loadErrors| - 1] == "model: " + modelFile.message
  {
    var (s, errS) := SafeLoad(scalerFile, "scaler");
    var afterScaler := if IsTruthy(errS) then prior + [errS.value] else prior;
    var (m, errM) := SafeLoad(modelFile, "model");
    var afterModel := if IsTruthy(errM) then afterScaler + [errM.value] else afterScaler;
    Config(s, m, afterModel)
  }

  /** Read from a fresh start, the diagnostics list holds at most one entry per
      artifact, and an artifact is absent exactly when its entry is there. */
  lemma StartupDiagnostics<L>(scalerFile: Attempt<Scaler>, modelFile: Attempt<Classifier<L>>)
    ensures var c := LoadPhase([], scalerFile, modelFile);
      && |c.loadErrors| <= 2
      && (c.loadErrors == [] <==> c.scaler.Some? && c.model.Some?)
      && (c.scaler.None? <==> exists e :: e in c.loadErrors && "scaler: " <= e)
      && (c.model.None? <==> exists e :: e in c.loadErrors && "model: " <= e)
  {
    var c := LoadPhase([], scalerFile, modelFile);
    if scalerFile.Raised? {
      assert "scaler: " <= c.loadErrors[0] && c.loadErrors[0] in c.loadErrors;
    } else {
      forall e | e in c.loadErrors
        ensures !("scaler: " <= e)
      {
        assert e == "model: " + modelFile.message;
        assert e[0] == 'm';
      }
    }
    if modelFile.Raised? {
      var last := c.loadErrors[|c.loadErrors| - 1];
      assert "model: " <= last && last in c.loadErrors;
    } else {
      forall e | e in c.loadErrors
        ensures !("model: " <= e)
      {
        assert e == "scaler: " + scalerFile.message;
        assert e[0] == 's';
      }
    }
  }

  /** The service process: the module-level globals `scaler`, `model` and
      `load_errors`, assigned by the load sequence at import time. */
  class Service<L> {
    var scaler: Option<Scaler>
    var model: Option<Classifier<L>>
    var loadErrors: seq<string>

    /** The state before anything is loaded. */
    constructor ()
      ensures scaler.None? && model.None? && loadErrors == []
    {
      scaler := None;
      model := None;
      loadErrors := [];
    }

    /** The current state, as the request handlers see it. */
    function Snapshot(): Config<L>
      reads this
    {
      Config(scaler, model, loadErrors)
    }

    /** Load the scaler, then the model, appending each failure to `loadErrors`. */
    method LoadArtifacts(scalerFile: Attempt<Scaler>, modelFile: Attempt<Classifier<L>>)
      modifies this
      ensures Snapshot() == LoadPhase(old(loadErrors), scalerFile, modelFile)
      ensures old(loadErrors) <= loadErrors && |loadErrors| <= |old(loadErrors)| + 2
    {
      var (s, errS) := SafeLoad(scalerFile, "scaler");
      scaler := s;
      if IsTruthy(errS) {
        loadErrors := loadErrors + [errS.value];
      }
      var (m, errM) := SafeLoad(modelFile, "model");
      model := m;
      if IsTruthy(errM) {
        loadErrors := loadErrors + [errM.value];
      }
    }
  }

  /** Process start: the globals begin empty and the load sequence then runs
      once, scaler first, then model. */
  method Start<L>(scalerFile: Attempt<Scaler>, modelFile: Attempt<Classifier<L>>) returns (s: Service<L>)
    ensures fresh(s)
    ensures s.Snapshot() == LoadPhase([], scalerFile, modelFile)
  {
    s := new Service();
    s.LoadArtifacts(scalerFile, modelFile);
  }

  /** The body of `GET /health`, and its status code. */
  datatype HealthReport = HealthReport(
    status: string,
    modelLoaded: bool,
    scalerLoaded: bool,
    errors: seq<string>,
    code: int)

  /** `health`: healthy and 200 only when both artifacts are present and no
      load error was recorded; degraded and 500 otherwise. */
  function Health<L>(c: Config<L>): (r: HealthReport)
    ensures r.code == 200 <==> c.model.Some? && c.scaler.Some? && c.loadErrors == []
    ensures r.code == 200 || r.code == 500
    ensures r.status == (if r.code == 200 then "healthy" else "degraded")
    ensures r.modelLoaded == c.model.Some? && r.scalerLoaded == c.scaler.Some?
    ensures r.errors == c.loadErrors
  {
    var ok := c.model.Some? && c.scaler.Some? && c.loadErrors == [];
    HealthReport(
      if ok then "healthy" else "degraded",
      c.model.Some?,
      c.scaler.Some?,
      c.loadErrors,
      if ok then 200 else 500)
  }

  /** After the start-up load, the service is healthy exactly when both
      artifact files loaded. */
  lemma StartupHealth<L>(scalerFile: Attempt<Scaler>, modelFile: Attempt<Classifier<L>>)
    ensures Health(LoadPhase([], scalerFile, modelFile)).code == 200 <==> scalerFile.Ok? && modelFile.Ok?
  {
  }
}
