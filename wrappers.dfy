/** Optional values and results with an error, as used by the analyzers and the controller. */
module Wrappers {

  /** A JavaScript value that may be `undefined` (None). */
  datatype Option<+T> = None | Some(value: T) {
    /** The value, or `default` when it is absent (a JavaScript default parameter). */
    function GetOr(default: T): (r: T)
      ensures Some? ==> r == value
      ensures None? ==> r == default
    {
      match this
      case Some(v) => v
      case None => default
    }
  }

  /** The outcome of a computation that may throw. */
  datatype Result<+T, +E> = Success(value: T) | Failure(error: E)
}
