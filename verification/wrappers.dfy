/** Failure-carrying wrappers shared by the router model. */
module Wrappers {

  /** An optional value: the source's `undefined`/`null` cases. */
  datatype Option<+T> = None | Some(value: T)

  /** A computation that yields a value or an error (a thrown exception in the source). */
  datatype Result<+T, +E> = Success(value: T) | Failure(error: E)

  /** A computation that only succeeds or fails. */
  datatype Outcome<+E> = Pass | Fail(error: E)
}
