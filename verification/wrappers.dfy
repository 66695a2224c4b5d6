/** Failure-compatible result types shared by the schema and the route handlers. */
module Wrappers {

  /** A value that may be absent: a missing JSON key, an id that matches no record. */
  datatype Option<+T> = None | Some(value: T) {

    /** The carried value, or `default` when there is none. */
    function GetOr(default: T): T
    {
      match this
      case Some(v) => v
      case None => default
    }
  }

  /** The outcome of a validation that reports failure as a value instead of throwing. */
  datatype Result<+R, +E> = Success(value: R) | Failure(error: E)
}
