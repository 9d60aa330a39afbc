/** Small failure-carrying datatypes shared by the modules of this project. */
module Wrappers {

  /** A value that may be absent (JavaScript's `undefined`/`null`). */
  datatype Option<+T> = None | Some(value: T)

  /** The outcome of an operation that either produces a value or stops with a message. */
  datatype Result<+T, +E> = Ok(value: T) | Err(error: E)
}
