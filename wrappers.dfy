/** Failure-carrying values used by every step of a reconciliation cycle. */
module Wrappers {

  /** A value that may be absent, as a nil pointer field of a decoded response. */
  datatype Option<+T> = None | Some(value: T)

  /** A computed value, or the reason it could not be computed. */
  datatype Result<+T, +E> = Success(value: T) | Failure(error: E)

  /** The outcome of a step that yields nothing but may fail. */
  datatype Outcome<+E> = Pass | Fail(error: E)
}
