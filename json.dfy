/** JSON values as the route handlers see them after `request.json()`, and the
    truthiness JavaScript gives them in `if (v)`, `v ? a : b` and `v || d`. */
module Json {
  import opened Wrappers

  datatype JsonValue =
    | JNull
    | JBool(b: bool)
    | JNumber(n: real)
    | JString(s: string)
    | JArray(items: seq<JsonValue>)
    | JObject(fields: map<string, JsonValue>)

  /** JavaScript truthiness of a parsed JSON value (JSON has no NaN, so only 0 is a falsy number). */
  predicate Truthy(v: JsonValue) {
    match v
    case JNull => false
    case JBool(b) => b
    case JNumber(n) => n != 0.0
    case JString(s) => s != ""
    case JArray(_) => true
    case JObject(_) => true
  }

  /** Property access `v.key`: None stands for `undefined`.  Reading a property
      of a primitive or an array gives `undefined` for the keys used here. */
  function Field(v: JsonValue, key: string): (r: Option<JsonValue>)
    ensures r.Some? <==> v.JObject? && key in v.fields
    ensures r.Some? ==> r.value == v.fields[key]
  {
    if v.JObject? && key in v.fields then Some(v.fields[key]) else None
  }

  /** `JSON.stringify` of an optional string field: null/undefined becomes null. */
  function OptString(s: Option<string>): (v: JsonValue)
    ensures Truthy(v) <==> s.Some? && s.value != ""
    ensures s.Some? ==> v == JString(s.value)
    ensures s.None? ==> v == JNull
  {
    match s
    case Some(x) => JString(x)
    case None => JNull
  }
}
