/**
 * The values `json.loads` can produce, and the few Python operations the
 * executor applies to them: truthiness, `dict.get` and `x or default`.
 */
module JsonValue {

  /** A decoded JSON document. Numbers are kept as exact reals. */
  datatype Json =
    | JNull
    | JBool(b: bool)
    | JNumber(n: real)
    | JString(s: string)
    | JArray(items: seq<Json>)
    | JObject(fields: map<string, Json>)

  /** Python's `bool(x)` on a decoded JSON value. */
  predicate Truthy(j: Json)
  {
    match j
    case JNull => false
    case JBool(b) => b
    case JNumber(n) => n != 0.0
    case JString(s) => s != ""
    case JArray(items) => items != []
    case JObject(fields) => fields != map[]
  }

  /** `d.get(key)` on a dict: the value stored under `key`, or `None` (JSON null). */
  function GetOrNull(fields: map<string, Json>, key: string): (r: Json)
  {
    if key in fields then fields[key] else JNull
  }

  /** Python's `a or b`: `a` when it is truthy, `b` otherwise. */
  function Or(a: Json, b: Json): (r: Json)
  {
    if Truthy(a) then a else b
  }

  /** `d.get(key) or default`: a field that is missing, null, false, 0, "", [] or {} gets the default. */
  function FieldOr(fields: map<string, Json>, key: string, default: Json): (r: Json)
    ensures key in fields && Truthy(fields[key]) ==> r == fields[key]
    ensures (key !in fields || !Truthy(fields[key])) ==> r == default
  {
    Or(GetOrNull(fields, key), default)
  }
}
