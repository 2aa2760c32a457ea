/** JSON values as the request handler sees them after the HTTP body has been parsed. */
module Json {

  datatype Option<T> = None | Some(value: T)

  /** A parsed JSON document. A number written without a fraction or exponent
      is a `JInt`; any other number is a `JNum`, kept as its exact value. */
  datatype Json =
    | JNull
    | JBool(b: bool)
    | JInt(i: int)
    | JNum(r: real)
    | JStr(s: string)
    | JArr(items: seq<Json>)
    | JObj(fields: map<string, Json>)

  /** A JSON object, the shape of a request body, of `params` and of one metadata entry. */
  type JsonObject = map<string, Json>

  /** The JSON array of the given strings. */
  function Strings(xs: seq<string>): seq<Json>
  {
    seq(|xs|, i requires 0 <= i < |xs| => JStr(xs[i]))
  }

  /** The JSON array of the given objects. */
  function Objects(ms: seq<JsonObject>): seq<Json>
  {
    seq(|ms|, i requires 0 <= i < |ms| => JObj(ms[i]))
  }
}
