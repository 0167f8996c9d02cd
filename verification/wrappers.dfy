/** Absence and failure kept apart: `Option` is the nullable return of a lookup,
    `Result` is a return that may instead carry an error. */
module Wrappers {

  /** A value that may be absent (a Java `null` return). */
  datatype Option<+T> = None | Some(value: T)

  /** A value or the error that was raised instead of returning it. */
  datatype Result<+R, +E> = Success(value: R) | Failure(error: E)
}
