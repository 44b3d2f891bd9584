/** Failure-carrying values shared by the other modules. Error texts are strings. */
module Wrappers {

  /** A value that may be absent. */
  datatype Option<+T> = None | Some(value: T)

  /** The result of a step that yields a value or fails with an error text. */
  datatype Result<+T> = Ok(value: T) | Err(error: string)

  /** The result of a step that yields nothing beyond success or an error text. */
  datatype Outcome = Pass | Fail(error: string)
}
