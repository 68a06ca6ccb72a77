/** Failure-compatible wrappers used across the model: an optional value
    (a Python `None`-able field) and a success-or-error result (an operation
    that raises). */
module Wrappers {

  datatype Option<+T> = None | Some(value: T) {
    function GetOr(default: T): T {
      match this
      case Some(v) => v
      case None => default
    }
  }

  datatype Result<+R, +E> = Success(value: R) | Failure(error: E)
}
