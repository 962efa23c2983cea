/** Optional values: JavaScript's `undefined`/`null` and the falsy "absent" cases of `x || default`. */
module Wrappers {

  datatype Option<+T> = None | Some(value: T) {

    /** The value, or `default` when absent (the `x || default` idiom of the source). */
    function GetOr(default: T): T {
      match this
      case Some(v) => v
      case None => default
    }
  }

  /** Outcome of an asynchronous call: a resolved value or the value it rejected with. */
  datatype Result<+R, +E> = Success(value: R) | Failure(error: E)
}
