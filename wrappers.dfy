/** Optional values and results with an error, the two shapes the front end uses
    for `undefined`-able fields and for calls that can throw. */
module Wrappers {

  datatype Option<+T> = None | Some(value: T) {
    /** `this ?? fallback`. */
    function GetOr(fallback: T): T {
      match this
      case Some(v) => v
      case None => fallback
    }
  }

  datatype Result<+T, +E> = Success(value: T) | Failure(error: E)
}
