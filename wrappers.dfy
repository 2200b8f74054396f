/** Option and Result, the two failure-carrying values the model needs. */
module Wrappers {

  /** A dictionary key that may be absent: `None` stands for "key not present". */
  datatype Option<+T> = None | Some(value: T) {

    /** `d.get(key, default)` */
    function GetOr(default: T): T {
      match this
      case Some(v) => v
      case None => default
    }
  }

  /** The outcome of a step that can raise: `Failure` carries the exception. */
  datatype Result<+R, +E> = Success(value: R) | Failure(error: E)

  /** A statement that either completes (`Pass`) or raises (`Fail`). */
  datatype Outcome<+E> = Pass | Fail(error: E)
}
