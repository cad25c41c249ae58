/** Java's `null` results and thrown exceptions, modelled as values. */
module Wrappers {

  /** A value that may be missing (Java's nullable reference). */
  datatype Option<+T> = None | Some(value: T)

  /** A computed value, or the exception thrown instead of it. */
  datatype Result<+R, +E> = Success(value: R) | Failure(error: E)

  /** A `void` call that completed normally, or the exception it threw. */
  datatype Outcome<+E> = Pass | Fail(error: E)
}
