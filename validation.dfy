/** Request-body handling of `POST /predict`: reading the body, finding the
    missing fields, coercing the fields to floats and echoing them back. */
module Validation {
  import opened Wrappers
  import opened Seqs
  import opened PyJson

  /** `request.get_json(silent=True) or {}`: `body` is None when there is no
      body, the JSON is malformed or the content type is not JSON; a falsy
      document (null, false, 0, "", [], {}) also becomes `{}`. */
  function RequestData(body: Option<Json>): (data: Json)
    ensures body.None? || !Truthy(body.value) ==> data == JObject(map[])
    ensures body.Some? && Truthy(body.value) ==> data == body.value
  {
    if body.Some? && Truthy(body.value) then body.value else JObject(map[])
  }

  /** `[f for f in names if f not in data]`, evaluated left to right: the
      first `in` that raises aborts the list. */
  function MissingFields(names: seq<string>, data: Json): (r: Attempt<seq<string>>)
    ensures r.Raised? <==> names != [] && !IsContainer(data)
    ensures r.Raised? ==> r == Raised(Contains(data, names[0]).message)
    ensures r.Ok? ==> forall f :: f in r.value <==> f in names && Contains(data, f) == Ok(false)
    ensures r.Ok? ==> IsSubsequence(r.value, names)
  {
    if names == [] then Ok([])
    else
      match Contains(data, names[0])
      case Raised(e) => Raised(e)
      case Ok(present) =>
        match MissingFields(names[1..], data)
        case Raised(e) => Raised(e)
        case Ok(rest) => Ok(if present then rest else [names[0]] + rest)
  }

  /** `float(data[f])` for one field; `toFloat` is Python's `float()`. */
  function FieldAsFloat(data: Json, f: string, toFloat: Json -> Attempt<real>): Attempt<real> {
    match GetItem(data, f)
    case Raised(e) => Raised(e)
    case Ok(v) => toFloat(v)
  }

  /** `[float(data[f]) for f in names]`: either every field converts and the
      row holds the values in the order of `names`, or the first field that
      fails decides the error. */
  function CoerceFeatures(names: seq<string>, data: Json, toFloat: Json -> Attempt<real>): (r: Attempt<seq<real>>)
    ensures r.Ok? <==> forall i :: 0 <= i < |names| ==> FieldAsFloat(data, names[i], toFloat).Ok?
    ensures r.Ok? ==> |r.value| == |names|
    ensures r.Ok? ==> forall i :: 0 <= i < |names| ==> FieldAsFloat(data, names[i], toFloat) == Ok(r.value[i])
  {
    if names == [] then Ok([])
    else
      match FieldAsFloat(data, names[0], toFloat)
      case Raised(e) => Raised(e)
      case Ok(x) =>
        match CoerceFeatures(names[1..], data, toFloat)
        case Raised(e) => Raised(e)
        case Ok(rest) =>
          assert forall i :: 1 <= i < |names| ==> names[i] == names[1..][i - 1];
          Ok([x] + rest)
  }

  /** Every field before position `i` converts and the one at `i` raises `msg`. */
  ghost predicate FirstFailure(names: seq<string>, data: Json, toFloat: Json -> Attempt<real>, i: nat, msg: string)
    requires i < |names|
  {
    && (forall j :: 0 <= j < i ==> FieldAsFloat(data, names[j], toFloat).Ok?)
    && FieldAsFloat(data, names[i], toFloat) == Raised(msg)
  }

  /** A conversion error is the error of the first field, in the order of
      `names`, that does not convert. */
  lemma {:induction false} CoercionErrorIsFirstFailure(names: seq<string>, data: Json, toFloat: Json -> Attempt<real>)
    requires CoerceFeatures(names, data, toFloat).Raised?
    ensures exists i :: 0 <= i < |names| && FirstFailure(names, data, toFloat, i, CoerceFeatures(names, data, toFloat).message)
  {
    var msg := CoerceFeatures(names, data, toFloat).message;
    if FieldAsFloat(data, names[0], toFloat).Raised? {
      assert FirstFailure(names, data, toFloat, 0, msg);
    } else {
      CoercionErrorIsFirstFailure(names[1..], data, toFloat);
      var i :| 0 <= i < |names[1..]| && FirstFailure(names[1..], data, toFloat, i, msg);
      forall j | 0 <= j < i + 1
        ensures FieldAsFloat(data, names[j], toFloat).Ok?
      {
        if j > 0 { assert names[j] == names[1..][j - 1]; }
      }
      assert FirstFailure(names, data, toFloat, i + 1, msg);
    }
  }

  /** `{k: data[k] for k in names}`: the values of exactly the keys `names`,
      taken from `data` unconverted; any failing subscript raises. */
  function EchoFeatures(names: seq<string>, data: Json): (r: Attempt<map<string, Json>>)
    ensures r.Ok? <==> forall i :: 0 <= i < |names| ==> GetItem(data, names[i]).Ok?
    ensures r.Ok? ==> r.value.Keys == set f | f in names
    ensures r.Ok? ==> forall f :: f in r.value ==> GetItem(data, f) == Ok(r.value[f])
  {
    if names == [] then Ok(map[])
    else
      match GetItem(data, names[0])
      case Raised(e) => Raised(e)
      case Ok(v) =>
        match EchoFeatures(names[1..], data)
        case Raised(e) => Raised(e)
        case Ok(m) =>
          assert forall i :: 1 <= i < |names| ==> names[i] == names[1..][i - 1];
          assert forall f :: f in names <==> f == names[0] || f in names[1..];
          Ok(m[names[0] := v])
  }

  /** From the empty object every field is missing, in the order given. */
  lemma {:induction false} AllMissingFromEmpty(names: seq<string>)
    ensures MissingFields(names, JObject(map[])) == Ok(names)
  {
    if names != [] {
      AllMissingFromEmpty(names[1..]);
      assert [names[0]] + names[1..] == names;
    }
  }

  /** For an object body, the missing list is exactly the names absent from
      its keys, in the order of `names`, and over duplicate-free names it has
      no duplicates. */
  lemma MissingFromObject(names: seq<string>, fields: map<string, Json>)
    requires Distinct(names)
    ensures MissingFields(names, JObject(fields)).Ok?
    ensures var missing := MissingFields(names, JObject(fields)).value;
      && (forall f :: f in missing <==> f in names && f !in fields)
      && IsSubsequence(missing, names)
      && Distinct(missing)
  {
    SubsequenceDistinct(MissingFields(names, JObject(fields)).value, names);
  }

  /** Those facts determine the missing list: any list of the absent names
      that keeps the order of `names` is the list reported. */
  lemma MissingIsUnique(names: seq<string>, fields: map<string, Json>, other: seq<string>)
    requires Distinct(names)
    requires IsSubsequence(other, names)
    requires forall f :: f in other <==> f in names && f !in fields
    ensures MissingFields(names, JObject(fields)) == Ok(other)
  {
    MissingFromObject(names, fields);
    SubsequenceUnique(other, MissingFields(names, JObject(fields)).value, names);
  }

  /** When an object holds every field, the echo succeeds and maps
      exactly the names to the object's own (unconverted) values; other keys
      of the object are dropped. */
  lemma EchoOfObject(names: seq<string>, fields: map<string, Json>)
    requires forall f :: f in names ==> f in fields
    ensures EchoFeatures(names, JObject(fields)).Ok?
    ensures var echo := EchoFeatures(names, JObject(fields)).value;
      && echo.Keys == set f | f in names
      && (forall f :: f in echo ==> echo[f] == fields[f])
      && (forall k :: k in fields && k !in names ==> k !in echo)
  {
    assert forall i :: 0 <= i < |names| ==> names[i] in names;
  }
}
