/** Option and Result: an absent value, and a value or the error thrown instead. */
module Wrappers {

  /** A value that may be absent: the model of an optional (`?`) or `undefined` field. */
  datatype Option<+T> = None | Some(value: T) {

    /** The value, or `default` when absent: the model of `x || fallback` on an object-valued `x`. */
    function GetOr(default: T): T {
      match this
      case Some(v) => v
      case None => default
    }
  }

  /** Either a value or the error a function throws. */
  datatype Result<+R, +E> = Success(value: R) | Failure(error: E)
}
