/** Option and Result, used wherever the source returns null or throws. */
module Wrappers {

  /** None stands for JavaScript's null (or undefined). */
  datatype Option<+T> = None | Some(value: T) {

    /** The value, or the given default when there is none (`x || default`). */
    function GetOr(default: T): T {
      match this
      case Some(v) => v
      case None => default
    }
  }

  /** A value, or the message of the error the source would throw. */
  datatype Result<+T, +E> = Success(value: T) | Failure(error: E)

  function Min(a: int, b: int): int {
    if a <= b then a else b
  }

  function Max(a: int, b: int): int {
    if a >= b then a else b
  }
}
