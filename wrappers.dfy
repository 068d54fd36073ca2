/** Option and Result, the two failure-carrying wrappers the model uses. */
module Wrappers {

  /** A value that may be absent: an optional key of a payload or a nullable column. */
  datatype Option<+T> = None | Some(value: T) {

    /** The value, or the given default when absent. */
    function GetOr(default: T): T {
      match this
      case Some(v) => v
      case None => default
    }
  }

  /** Either an accepted value or the reason for rejecting it. */
  datatype Result<+R, +E> = Success(value: R) | Failure(error: E)
}
