/** Optional values and results with an error, as Swift's `Optional` and `throws` are used in the app. */
module Wrappers {

  /** Swift's `Optional`: `None` is `nil`. */
  datatype Option<+T> = None | Some(value: T) {
    /** The `??` operator: the wrapped value, or `default` when there is none. */
    function GetOr(default: T): T {
      match this
      case Some(v) => v
      case None => default
    }
  }

  /** The result of a call that can throw. */
  datatype Result<+R, +E> = Success(value: R) | Failure(error: E)

  /** The result of a call that can throw but returns nothing. */
  datatype Outcome<+E> = Pass | Fail(error: E)
}
