/** Failure-compatible wrappers shared by the other modules. */
module Wrappers {

  /** A value that may be missing (a Java reference that may be null). */
  datatype Option<+T> = None | Some(value: T)

  /** The outcome of an operation that produces a value or fails with an error. */
  datatype Result<+R, +E> = Success(value: R) | Failure(error: E)

  /** The outcome of an operation that produces no value but may fail. */
  datatype Outcome<+E> = Pass | Fail(error: E)
}
