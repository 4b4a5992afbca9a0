/** Option and Result, the two failure-carrying shapes the model uses in place of
    Python's `None` and of a raised exception. */
module Wrappers {

  datatype Option<+T> = None | Some(value: T) {

    /** The value, or `default` when absent (Python's `x or default` on a value that is never falsy). */
    function GetOr(default: T): T {
      match this
      case Some(v) => v
      case None => default
    }
  }

  datatype Result<+R, +E> = Success(value: R) | Failure(error: E)
}
