/** Optional values and error-or-value results. */
module Wrappers {

  /** A value that may be absent: the model's stand-in for JavaScript's `null` and `undefined`. */
  datatype Option<+T> = None | Some(value: T) {

    /** Returns the value held in `Some`, or `default` when absent. */
    function GetOr(default: T): T {
      match this
      case Some(v) => v
      case None => default
    }
  }

  /** A value, or the error an operation throws instead. */
  datatype Result<+T, +E> = Ok(value: T) | Err(error: E)
}
