/** Option and Result, the failure-carrying values used throughout the model. */
module Wrappers {

  /** A value that may be absent, such as a command-line argument that was not given. */
  datatype Option<+T> = None | Some(value: T)

  /** The outcome of a step that either yields a value or fails with an error message. */
  datatype Result<+R, +E> = Success(value: R) | Failure(error: E)
}
