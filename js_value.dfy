/** JavaScript values as the guild entity's operations receive them, and the
    small failure-carrying wrappers the model uses for their results. */
module JsValues {

  /** A dynamically typed JavaScript argument. `Undefined` is also what an
      omitted argument is. Object identity is not modelled: two values are
      equal exactly when they are structurally equal. */
  datatype Value =
    | Undefined
    | Null
    | Bool(b: bool)
    | Num(n: int)
    | Str(s: string)
    | Arr(elems: seq<Value>)
    | Obj(props: map<string, Value>)

  datatype Option<+T> = None | Some(value: T)

  datatype Result<+R, +E> = Success(value: R) | Failure(error: E)
}
