/** Option and Result: absent values (`undefined`, `null`) and thrown errors of the UI code. */
module Wrappers {

  /** A value that may be missing: `T | undefined` or `T | null` in the source. */
  datatype Option<+T> = None | Some(value: T)

  /** The outcome of an expression that may throw: a value, or the error that was thrown. */
  datatype Result<+T, +E> = Success(value: T) | Failure(error: E)
}
