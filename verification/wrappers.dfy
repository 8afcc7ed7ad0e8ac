/** Optional values and call outcomes shared by the other modules: an optional
    value (TypeScript's `undefined`/`null` or a present value) and the result of
    an operation that may throw. */
module Wrappers {

  /** A value that may be absent; `GetOr` is TypeScript's `x ?? default`. */
  datatype Option<+T> = None | Some(value: T) {
    function GetOr(default: T): T {
      match this
      case Some(v) => v
      case None => default
    }
  }

  /** A call that returns nothing or fails with an error. */
  datatype Outcome<+E> = Pass | Fail(error: E)

  /** A call that returns a value or fails with an error. */
  datatype Result<+T, +E> = Success(value: T) | Failure(error: E)
}
