/** Option and Result: absent values and error returns, shared by every module. */
module Wrappers {

  /** Python's `None` / JavaScript's `null` next to a present value. */
  datatype Option<+T> = None | Some(value: T) {
    function GetOr(default: T): T {
      match this
      case Some(v) => v
      case None => default
    }
  }

  /** A successful value, or the error the source raises or returns. */
  datatype Result<+T, +E> = Success(value: T) | Failure(error: E)
}
