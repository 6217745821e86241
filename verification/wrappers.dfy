/** Option and outcome types shared by the whole model. */
module Wrappers {

  /** A value that may be absent: JavaScript's `undefined`/`null`, Python's `None`. */
  datatype Option<+T> = None | Some(value: T)

  /**
   * The result of a call into the HTTP service layer, which this model does
   * not see: either the payload the server returned, or a thrown exception.
   * `Failure(Some(m))` is an `Error` instance with message `m`; `Failure(None)`
   * is anything else that was thrown.
   */
  datatype Outcome<+T> = Success(value: T) | Failure(message: Option<string>)

  /** A computation that either yields a value or fails with an error. */
  datatype Result<+T, +E> = Ok(value: T) | Err(error: E)
}
