/** Optional values and results with an error: the model's stand-ins for
    JavaScript's `null` and for a thrown `Error`. */
module Wrappers {

  /** `None` plays the part of `null`/`undefined`. */
  datatype Option<+T> = None | Some(value: T) {
    function GetOr(default: T): T {
      match this
      case Some(v) => v
      case None => default
    }
  }

  /** `Failure` plays the part of an exception that propagates to the caller. */
  datatype Result<+R, +E> = Success(value: R) | Failure(error: E)
}
