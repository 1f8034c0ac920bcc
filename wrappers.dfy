/** Option and Result, standing for the source's `T | null` values and for
    the TypeError a row normalizer can throw. */
module Wrappers {

  datatype Option<+T> = None | Some(value: T) {
    /** `x ?? d`, and `x || d` for values whose only falsy form is null */
    function GetOr(default: T): T {
      match this
      case Some(v) => v
      case None => default
    }
  }

  datatype Result<+T, +E> = Success(value: T) | Failure(error: E)
}
