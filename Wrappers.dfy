/** Absence and failure as values: Java's `null` and thrown exceptions. */
module Wrappers {

  /** A value that may be missing; `None` stands for a Java `null`. */
  datatype Option<+T> = None | Some(value: T)

  /** The outcome of an operation that may throw instead of returning. */
  datatype Result<+T, +E> = Success(value: T) | Failure(error: E)
}
