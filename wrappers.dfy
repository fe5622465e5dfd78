/** Option and Result, the two wrappers the rest of the model is written with. */
module Wrappers {

  /** An attribute or argument that may be missing. */
  datatype Option<+T> = None | Some(value: T)

  /** The outcome of a step that may raise: a value, or the text of the exception. */
  datatype Result<+R, +E> = Success(value: R) | Failure(error: E)
}
