/** Failure-compatible wrappers used for PHP's nullable values and exceptions. */
module Wrappers {

  datatype Option<+T> = None | Some(value: T)

  /** The result of an operation that either returns a value or throws. */
  datatype Result<+R, +E> = Success(value: R) | Failure(error: E)

  /** The result of an operation that returns nothing (PHP `void` / `self`) or throws. */
  datatype Outcome<+E> = Pass | Fail(error: E)
}
