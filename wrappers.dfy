/** Optional values and results with an error, used where the source has nullable
    references or exceptions. */
module Wrappers {

  /** A value that may be absent, in place of a nullable reference. */
  datatype Option<+T> = None | Some(value: T) {

    /** The value, or `default` when there is none (Kotlin's `?:`). */
    function GetOr(default: T): T {
      match this
      case Some(v) => v
      case None => default
    }
  }

  /** The outcome of a computation that may end in an exception. */
  datatype Result<+T, +E> = Success(value: T) | Failure(error: E)
}
