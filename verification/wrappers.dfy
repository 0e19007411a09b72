/** Option and Result: how the model writes Python's `None` and a raised exception. */
module Wrappers {

  /** A value that may be absent (Python's `None`, or a key missing from a dict). */
  datatype Option<+T> = None | Some(value: T) {

    /** The value, or `default` when absent: Python's `d.get(key, default)`. */
    function GetOr(default: T): T {
      match this
      case Some(v) => v
      case None => default
    }
  }

  /** A computation that either returns a value or raises an exception described by `error`. */
  datatype Result<+R, +E> = Success(value: R) | Failure(error: E)
}
