/**
 * The JavaScript values a request body carries, with JavaScript's truthiness and the
 * `length` property, and the answer a route handler sends.
 */
module Js {
  import opened Wrappers

  /** A JSON-decoded request field. Numbers are integers; an object's fields are not
      looked at by any handler, so an object carries none. */
  datatype JsValue =
    | Undefined
    | Null
    | Bool(b: bool)
    | Num(n: int)
    | Str(s: string)
    | Arr(items: seq<JsValue>)
    | Obj

  /** JavaScript truthiness: undefined, null, false, 0 and "" are falsy. */
  predicate Truthy(v: JsValue) {
    match v
    case Undefined => false
    case Null => false
    case Bool(b) => b
    case Num(n) => n != 0
    case Str(s) => s != ""
    case Arr(_) => true
    case Obj => true
  }

  /** `v.length`: defined on strings and arrays, undefined on the rest. */
  function Length(v: JsValue): Option<nat> {
    match v
    case Str(s) => Some(|s|)
    case Arr(items) => Some(|items|)
    case _ => None
  }

  /** A destructuring default `{ x = d }`: applies only when the field is undefined. */
  function DefaultIfUndefined(v: JsValue, d: JsValue): JsValue {
    if v == Undefined then d else v
  }

  /** `v || d`: the default replaces every falsy value. */
  function OrElse(v: JsValue, d: JsValue): JsValue {
    if Truthy(v) then v else d
  }

  /** What a route handler sends back: a success body (a message and, for a created
      row, its id), an error status, or nothing at all when a callback throws. */
  datatype Response =
    | Success(message: string, id: Option<nat>)
    | Fail(error: HttpError)
    | NoResponse

  function Error(status: nat, message: string): Response {
    Fail(HttpError(status, message))
  }
}
