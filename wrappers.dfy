/** Option and Result values, standing for Python's `X | None` and for raised exceptions. */
module Wrappers {

  datatype Option<+T> = None | Some(value: T) {

    /** The value, or `default` when there is none (Python's `x or default` for non-empty x). */
    function GetOr(default: T): T {
      match this
      case Some(v) => v
      case None => default
    }
  }

  /** Success carries the value; Failure carries the message of the exception that was raised. */
  datatype Result<+R, +E> = Success(value: R) | Failure(error: E)
}
