/** Optional values and results with an error, shared by the other modules. */
module Wrappers {

  /** A value that may be absent: a missing dictionary entry, a JSON null,
      a failed fetch or a pattern that did not match. */
  datatype Option<+T> = None | Some(value: T)

  /** The outcome of an operation that either produces a value or stops with an error. */
  datatype Result<+R, +E> = Success(value: R) | Failure(error: E)
}
