/** JSON documents as Python's json module decodes them, and the few Python
    operations the request handler applies to them: truthiness, the `in`
    operator with a str key, and subscripting with a str key. Exception texts
    follow CPython 3.12, except that a KeyError quotes its key plainly, which
    matches `repr` only for keys without quotes, backslashes or control
    characters. */
module PyJson {
  import opened Wrappers

  /** A decoded JSON value: None, bool, int, float, str, list or dict. */
  datatype Json =
    | JNull
    | JBool(b: bool)
    | JInt(i: int)
    | JFloat(x: real)
    | JString(s: string)
    | JArray(items: seq<Json>)
    | JObject(fields: map<string, Json>)

  /** Python's `bool(v)`. */
  predicate Truthy(v: Json) {
    match v
    case JNull => false
    case JBool(b) => b
    case JInt(i) => i != 0
    case JFloat(x) => x != 0.0
    case JString(s) => s != ""
    case JArray(items) => items != []
    case JObject(fields) => fields != map[]
  }

  /** Python's `type(v).__name__`. */
  function TypeName(v: Json): string {
    match v
    case JNull => "NoneType"
    case JBool(_) => "bool"
    case JInt(_) => "int"
    case JFloat(_) => "float"
    case JString(_) => "str"
    case JArray(_) => "list"
    case JObject(_) => "dict"
  }

  /** Python's `f in s` for two strings: `f` occurs in `s` as a contiguous piece. */
  predicate IsSubstring(f: string, s: string)
    decreases |s|
  {
    if f <= s then true
    else if s == [] then false
    else IsSubstring(f, s[1..])
  }

  /** The values on which `key in v` is defined (the others raise TypeError). */
  predicate IsContainer(v: Json) {
    v.JObject? || v.JArray? || v.JString?
  }

  /** Python's `key in v` for a str key: dict keys, list elements, substrings. */
  function Contains(v: Json, key: string): (r: Attempt<bool>)
    ensures r.Ok? <==> IsContainer(v)
    ensures v.JObject? ==> r == Ok(key in v.fields)
  {
    match v
    case JObject(fields) => Ok(key in fields)
    case JArray(items) => Ok(JString(key) in items)
    case JString(s) => Ok(IsSubstring(key, s))
    case _ => Raised("argument of type '" + TypeName(v) + "' is not iterable")
  }

  /** Python's `v[key]` for a str key; only a dict that holds the key yields a value. */
  function GetItem(v: Json, key: string): (r: Attempt<Json>)
    ensures r.Ok? <==> v.JObject? && key in v.fields
    ensures r.Ok? ==> r.value == v.fields[key]
  {
    match v
    case JObject(fields) =>
      if key in fields then Ok(fields[key]) else Raised("'" + key + "'")
    case JArray(_) => Raised("list indices must be integers or slices, not str")
    case JString(_) => Raised("string indices must be integers, not 'str'")
    case _ => Raised("'" + TypeName(v) + "' object is not subscriptable")
  }
}
