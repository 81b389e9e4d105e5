/** Failure-carrying values used for the outcomes of catalog calls and of
    playlist creation. */
module Wrappers {

  datatype Option<+T> = None | Some(value: T)

  /** A call that yields a value or fails with an error. */
  datatype Result<+R, +E> = Success(value: R) | Failure(error: E)

  /** A call that yields nothing or fails with an error. */
  datatype Outcome<+E> = Pass | Fail(error: E)
}
