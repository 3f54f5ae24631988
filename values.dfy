/** Values exchanged between the HTTP layer, the cache store and the handlers. */
module Values {

  /** A decoded JSON document: request bodies, handler results and cache payloads. */
  datatype Json =
    | JNull
    | JBool(b: bool)
    | JNum(n: real)
    | JStr(s: string)
    | JArr(items: seq<Json>)
    | JObj(fields: map<string, Json>)

  /** Python truthiness of a decoded JSON value, as `x or {}` tests it. */
  predicate Truthy(j: Json) {
    match j
    case JNull => false
    case JBool(b) => b
    case JNum(n) => n != 0.0
    case JStr(s) => s != ""
    case JArr(items) => items != []
    case JObj(fields) => fields != map[]
  }

  /** The flat parameter mapping every handler receives. */
  type Params = map<string, Json>

  datatype Option<T> = None | Some(value: T)

  /** A handler outcome, or the error the request fails with. */
  datatype Result<T> = Ok(value: T) | Err(error: string)
}
