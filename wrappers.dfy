/** Option, Result and Outcome used across the model. */
module Wrappers {

  datatype Option<+T> = None | Some(value: T)

  /** A value or the error that the source would raise instead. */
  datatype Result<+T, +E> = Ok(value: T) | Err(error: E)

  /** Success, or the error raised by an operation that returns nothing. */
  datatype Outcome<+E> = Pass | Fail(error: E)
}
