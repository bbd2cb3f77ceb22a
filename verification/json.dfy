/**
 * JSON values as both backends and the admin client see them after parsing,
 * together with the two truthiness rules the code relies on: JavaScript's
 * `ToBoolean` (server.js, admin.js) and Python's `bool()` (app.py).
 */
module JsonValue {
  import opened Wrappers

  /** A parsed JSON value. JSON numbers are exact reals (JSON has no NaN). */
  datatype Json =
    | JNull
    | JBool(b: bool)
    | JNumber(n: real)
    | JString(s: string)
    | JArray(items: seq<Json>)
    | JObject(fields: map<string, Json>)

  /** JavaScript truthiness: `null`, `false`, `0` and `""` are falsy; every
      array and object, empty or not, is truthy. */
  predicate JsTruthy(v: Json) {
    match v
    case JNull => false
    case JBool(b) => b
    case JNumber(n) => n != 0.0
    case JString(s) => s != ""
    case JArray(_) => true
    case JObject(_) => true
  }

  /** JavaScript truthiness of a property read, where `None` is `undefined`. */
  predicate JsTruthyOpt(v: Option<Json>) {
    v.Some? && JsTruthy(v.value)
  }

  /** Python truthiness of a parsed value: empty lists and dicts are falsy too. */
  predicate PyTruthy(v: Json) {
    match v
    case JNull => false
    case JBool(b) => b
    case JNumber(n) => n != 0.0
    case JString(s) => s != ""
    case JArray(xs) => xs != []
    case JObject(m) => m != map[]
  }

  /** The two truthiness rules disagree exactly on the empty array and the empty object. */
  lemma TruthinessDiffersOnlyOnEmptyContainers(v: Json)
    ensures JsTruthy(v) != PyTruthy(v) <==> v == JArray([]) || v == JObject(map[])
  {
  }

  /** JavaScript property read `v[key]` on a parsed value: only objects carry
      named properties that JSON can express; everything else reads `undefined`. */
  function Prop(v: Json, key: string): (r: Option<Json>)
    ensures r.Some? <==> v.JObject? && key in v.fields
    ensures r.Some? ==> r.value == v.fields[key]
  {
    if v.JObject? && key in v.fields then Some(v.fields[key]) else None
  }

  /** The empty object `{}`. */
  const EmptyObject: Json := JObject(map[])
}
