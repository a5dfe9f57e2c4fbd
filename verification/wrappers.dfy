/** Failure-carrying values used across the model. */
module Wrappers {

  /** An optional value: a query that matched no row answers `None`. */
  datatype Option<+T> = None | Some(value: T)

  /** The outcome of an operation that can fail, as the source's `?` operator propagates it. */
  datatype Result<+R, +E> = Success(value: R) | Failure(error: E)
}
