/** Kotlin's nullable values and thrown exceptions, as values. */
module Wrappers {

  /** A Kotlin `T?`: `None` stands for `null`. */
  datatype Option<+T> = None | Some(value: T) {

    /** The Elvis operator `this ?: default`. */
    function GetOr(default: T): T {
      match this
      case Some(v) => v
      case None => default
    }
  }

  /** The outcome of a computation that may throw. */
  datatype Result<+T, +E> = Success(value: T) | Failure(error: E)
}
