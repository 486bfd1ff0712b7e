/** The JSON values a request body, a script's result and a response carry,
    together with the Python truthiness the request handler tests them by. */
module Json {

  /** A decoded JSON value as Python sees it after `json.load` or
      `request.get_json()`; `Null` is Python's `None`, `Num` an `int` and
      `Float` a finite `float`, taken as an exact real. */
  datatype Value =
    | Null
    | Bool(b: bool)
    | Num(n: int)
    | Float(r: real)
    | Str(s: string)
    | Arr(items: seq<Value>)
    | Obj(fields: map<string, Value>)

  /** Python's `bool(v)`: `None`, `False`, zero and empty containers are false. */
  predicate Truthy(v: Value) {
    match v
    case Null => false
    case Bool(b) => b
    case Num(n) => n != 0
    case Float(r) => r != 0.0
    case Str(s) => |s| > 0
    case Arr(items) => |items| > 0
    case Obj(fields) => |fields| > 0
  }
}
