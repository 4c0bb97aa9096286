/** Value types standing in for Go's multiple return values and `error`. */
module Wrappers {

  /** A Go `error`. Every error in the model is built by `errors.New` or handed back by a
      collaborator, so it is identified by its message. */
  datatype Error = Error(message: string)

  /** A Go pointer or slice that may be nil. */
  datatype Option<+T> = None | Some(value: T)

  /** The `(T, error)` pair of a Go call: a value with a nil error, or a non-nil error. */
  datatype Result<+T> = Ok(value: T) | Err(error: Error) {

    /** The value, or `default` when the call failed (Go's `v, _ := f()` on a zero value). */
    function GetOr(default: T): (v: T)
      ensures Ok? ==> v == value
      ensures Err? ==> v == default
    {
      match this
      case Ok(v) => v
      case Err(_) => default
    }
  }

  /** A lone Go `error` return: nil or not. */
  datatype Outcome = Pass | Fail(error: Error)
}
