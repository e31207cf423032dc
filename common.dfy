/** Small shared vocabulary: optional values, results, and the JSON response an
    HTTP handler sends back. */
module Common {

  datatype Option<+T> = None | Some(value: T)

  datatype Result<+T, +E> = Ok(value: T) | Err(error: E) {
    predicate IsFailure() { Err? }

    function PropagateFailure<U>(): Result<U, E>
      requires Err?
    {
      Err(error)
    }

    function Extract(): T
      requires Ok?
    {
      value
    }
  }

  /** The JSON object a handler answers with. FastAPI's HTTPException answers
      `{"detail": ...}`, Express handlers here answer `{error: ...}`, a
      successful SQL generation answers `{query: ...}`, and a request FastAPI
      rejects before the handler runs answers with its own validation report. */
  datatype Body =
    | QueryBody(query: string)
    | DetailBody(detail: string)
    | ErrorBody(error: string)
    | ValidationReport

  datatype HttpResponse = HttpResponse(status: nat, body: Body)
}

/** JavaScript values as the Express handlers and the React form see them. */
module Js {

  /** `Num` stands for the integral numbers the code handles; every other
      object, array or non-integral number is `Other`, which is truthy. */
  datatype JsValue = Undefined | Null | Bool(b: bool) | Num(n: int) | Str(s: string) | Other

  /** JavaScript truthiness: `undefined`, `null`, `false`, `0` and `''` are falsy. */
  predicate Truthy(v: JsValue) {
    match v
    case Undefined => false
    case Null => false
    case Bool(b) => b
    case Num(n) => n != 0
    case Str(s) => s != ""
    case Other => true
  }

  /** Reading a property of a parsed request body; a missing key reads `undefined`. */
  function Prop(body: map<string, JsValue>, key: string): JsValue {
    if key in body then body[key] else Undefined
  }

  /** A destructuring default `{ key = d } = body`: it applies only when the
      property is `undefined` (not when it is `null`). */
  function DefaultTo(v: JsValue, d: JsValue): (r: JsValue)
    ensures v == Undefined ==> r == d
    ensures v != Undefined ==> r == v
    ensures d != Undefined ==> r != Undefined
  {
    if v == Undefined then d else v
  }

  /** `v || null`. */
  function OrNull(v: JsValue): (r: JsValue)
    ensures r == Null || (Truthy(r) && r == v)
    ensures Truthy(v) <==> r != Null
  {
    if Truthy(v) then v else Null
  }
}
