/** Failure-compatible wrappers used across the model. */
module Wrappers {

  /** An optional value: a JavaScript field that may be `undefined`. */
  datatype Option<+T> = None | Some(value: T)

  /** The outcome of an operation that may throw: `Err` carries the error message. */
  datatype Result<+T> = Ok(value: T) | Err(message: string)
}
