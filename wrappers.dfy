/** Failure-carrying results shared by every module of the model. */
module Wrappers {

  /** A value that may be missing: a JavaScript `undefined`, a Python `dict.get` miss. */
  datatype Option<+T> = None | Some(value: T) {
    function GetOr(default: T): T {
      match this
      case Some(v) => v
      case None => default
    }
  }

  /** The outcome of an operation that either produces a value or raises an error. */
  datatype Result<+T, +E> = Ok(value: T) | Err(error: E)
}
