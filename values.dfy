/**
 * The values a client message decodes to (the result of `json.loads`) and
 * Python's truthiness on them.
 */
module Values {

  /** A decoded JSON value. JSON numbers are modelled as reals. */
  datatype Json =
    | JNull
    | JBool(b: bool)
    | JNumber(n: real)
    | JString(s: string)
    | JArray(items: seq<Json>)
    | JObject(fields: map<string, Json>)

  /** A decoded JSON object: the shape every recognised client message has. */
  type Message = map<string, Json>

  /** Python's truth value of a decoded JSON value (`if v:`). */
  predicate Truthy(v: Json)
  {
    match v
    case JNull => false
    case JBool(b) => b
    case JNumber(n) => n != 0.0
    case JString(s) => s != ""
    case JArray(xs) => xs != []
    case JObject(m) => m != map[]
  }

  /** The reply written back to the client for a data request: `{"data": p}`. */
  function DataReply(p: Json): (r: Json)
    ensures r.JObject? && r.fields.Keys == {"data"} && r.fields["data"] == p
  {
    JObject(map["data" := p])
  }
}
