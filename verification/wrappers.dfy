/** Optional and fallible values shared by the derivation modules. */
module Wrappers {

  /** A JSON value that may be missing. `None` stands for both JavaScript
      `undefined` and `null` wherever the code does not tell them apart. */
  datatype Option<+T> = None | Some(value: T) {

    /** The value, or `default` when missing: JavaScript's `x ?? default`. */
    function GetOr(default: T): T {
      match this
      case Some(v) => v
      case None => default
    }
  }

  /** The outcome of a derivation that can throw during rendering. */
  datatype Result<+R, +E> = Success(value: R) | Failure(error: E)
}
