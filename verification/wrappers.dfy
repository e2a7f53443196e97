/** Optional values and settled results, used across the bot model. */
module Wrappers {

  /** An optional value: the `undefined`-able fields of the TypeScript class, and map lookups. */
  datatype Option<+T> = None | Some(value: T) {

    /** The wrapped value, or `default` when there is none. */
    function GetOr(default: T): T {
      match this
      case Some(v) => v
      case None => default
    }
  }

  /** A settled promise: fulfilled with a value or rejected with an error. */
  datatype Result<+R, +E> = Success(value: R) | Failure(error: E)
}
