/** Option and Result: the shapes that Go's nil values and (value, error) pairs take in this model. */
module Wrappers {

  /** A value that may be absent (a nil pointer, an unset interface, a nil error). */
  datatype Option<+T> = None | Some(value: T) {

    /** The value, or `default` when there is none. */
    function GetOr(default: T): T {
      match this
      case Some(v) => v
      case None => default
    }
  }

  /** A call that returns either a value or an error. */
  datatype Result<+T, +E> = Success(value: T) | Failure(error: E)
}
