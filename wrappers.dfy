/** Optional values and results, used where the source relies on `undefined` or may throw. */
module Wrappers {

  /** A JavaScript value that may be `undefined`. */
  datatype Option<+T> = None | Some(value: T) {
    function GetOr(default: T): T {
      match this
      case Some(v) => v
      case None => default
    }
  }

  /** The outcome of an operation that the source may abort with an exception. */
  datatype Result<+R, +E> = Ok(value: R) | Err(error: E)
}
