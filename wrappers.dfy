/** Option, Outcome and Result, for the source's nullable values and its fatal errors. */
module Wrappers {

  datatype Option<+T> = None | Some(value: T)

  /** Pass, or Fail with the reason the source would throw. */
  datatype Outcome<+E> = Pass | Fail(error: E)

  /** A value, or the reason the source would throw instead of producing it. */
  datatype Result<+T, +E> = Success(value: T) | Failure(error: E)
}
