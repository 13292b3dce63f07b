/** Option and Result: the shapes used for Go's `(value, error)` returns and JavaScript's `undefined`. */
module Wrappers {

  datatype Option<+T> = None | Some(value: T) {
    function GetOr(default: T): T {
      match this
      case Some(v) => v
      case None => default
    }
  }

  /** A Go `(value, error)` pair: exactly one of the two is meaningful. */
  datatype Result<+T> = Ok(value: T) | Err(msg: string)

  /** A Go `error` return on its own: nil, or an error message. */
  datatype Outcome = Pass | Fail(msg: string)
}
