/** Option and Result values shared by the modules of this model. */
module Wrappers {

  /** A value that may be absent, such as a JavaScript `null` line. */
  datatype Option<+T> = None | Some(value: T)

  /** The outcome of an operation that either returns a value or fails, as a
      thrown error does in the source. */
  datatype Result<+T, +E> = Success(value: T) | Failure(error: E)
}
