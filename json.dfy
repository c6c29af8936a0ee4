/**
 * Decoded JSON values, as the source receives them from `request.json()` and
 * passes them on. Parsing and serialisation themselves are not modelled.
 */
module Json {
  import opened Wrappers
  import Text

  /** A decoded JSON value; numbers are integers in this model. */
  datatype Json =
    | JNull
    | JBool(b: bool)
    | JNumber(n: int)
    | JString(s: string)
    | JArray(items: seq<Json>)
    | JObject(fields: map<string, Json>)

  /**
   * JavaScript truthiness of a field that may be missing (`undefined`):
   * missing, `null`, `false`, `0` and `""` are falsy, everything else truthy.
   */
  predicate Truthy(v: Option<Json>)
  {
    match v
    case None => false
    case Some(JNull) => false
    case Some(JBool(b)) => b
    case Some(JNumber(n)) => n != 0
    case Some(JString(s)) => s != ""
    case Some(JArray(_)) => true
    case Some(JObject(_)) => true
  }

  /** How a template literal `${v}` renders a value. */
  function Display(v: Json): string
  {
    match v
    case JNull => "null"
    case JBool(b) => if b then "true" else "false"
    case JNumber(n) => Text.IntToString(n)
    case JString(s) => s
    case JArray(items) => JoinItems(items)
    case JObject(_) => "[object Object]"
  }

  /** `Array.prototype.join(",")`, which renders `null` elements as empty. */
  function JoinItems(items: seq<Json>): string
  {
    if items == [] then ""
    else
      var head := if items[0].JNull? then "" else Display(items[0]);
      if |items| == 1 then head else head + "," + JoinItems(items[1..])
  }

  /** `v.key`: the field of an object, missing (`undefined`) for anything else. */
  function Property(v: Json, key: string): (r: Option<Json>)
    ensures r.Some? <==> v.JObject? && key in v.fields
  {
    if v.JObject? && key in v.fields then Some(v.fields[key]) else None
  }
}
