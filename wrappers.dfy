/** The optional and failure-carrying values the other modules share. */
module Wrappers {

  /** A value that may be absent: an option written without a value, a field not found. */
  datatype Option<+T> = None | Some(value: T)

  /** Either what an operation produced or the error it raised. */
  datatype Result<+T, +E> = Success(value: T) | Failure(error: E)
}
