/** Option and Result, the two shapes the rest of the model uses for JavaScript's
    `null`/`undefined` and for thrown errors. */
module Wrappers {

  /** `None` stands for a missing value (`null` or `undefined`). */
  datatype Option<+T> = None | Some(value: T) {
    function GetOr(default: T): T {
      match this
      case Some(v) => v
      case None => default
    }
  }

  /** `Failure` stands for an `Error` thrown with the given message. */
  datatype Result<+R, +E> = Success(value: R) | Failure(error: E)
}
