/** Failure-compatible result types shared by every service of the model. */
module Wrappers {

  datatype Option<+T> = None | Some(value: T)

  /** The value of a call, or the exception it raises. */
  datatype Result<+R, +E> = Success(value: R) | Failure(error: E)

  /** A call that returns nothing useful, or the exception it raises. */
  datatype Outcome<+E> = Pass | Fail(error: E)
}
