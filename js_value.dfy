/** JSON values as `JSON.parse` returns them, and the JavaScript `Error` objects the client throws. */
module JsValue {
  import opened Wrappers

  /** A parsed JSON value; numbers are modelled as integers. */
  datatype Json =
    | JNull
    | JBool(b: bool)
    | JNumber(n: int)
    | JString(s: string)
    | JArray(items: seq<Json>)
    | JObject(fields: map<string, Json>)

  /** JavaScript truthiness of a JSON value. */
  predicate Truthy(v: Json) {
    match v
    case JNull => false
    case JBool(b) => b
    case JNumber(n) => n != 0
    case JString(s) => s != ""
    case JArray(_) => true
    case JObject(_) => true
  }

  /**
   * Property access `v.name` on a value that is not `null`: the field of an
   * object, and `undefined` (`None`) for every other kind of value.
   */
  function Property(v: Json, name: string): (r: Option<Json>)
    requires v != JNull
    ensures r.Some? <==> v.JObject? && name in v.fields
    ensures r.Some? ==> r.value == v.fields[name]
  {
    match v
    case JObject(fields) => if name in fields then Some(fields[name]) else None
    case _ => None
  }

  /** The response an error may carry in its `response` property. */
  datatype ErrorResponse = ErrorResponse(status: Option<int>)

  /**
   * A thrown error: its `message`, `status` and `response` properties, each
   * possibly absent.
   */
  datatype JsError = JsError(message: Option<string>, status: Option<int>, response: Option<ErrorResponse>)

  /** `new Error(message)`: a message and nothing else. */
  function NewError(message: string): (e: JsError)
    ensures e.message == Some(message) && e.status.None? && e.response.None?
  {
    JsError(Some(message), None, None)
  }
}
