/** Failure-compatible result types shared by every module of the model. */
module Wrappers {

  /** A value that may be absent: JavaScript's `null`/`undefined`. */
  datatype Option<+T> = None | Some(value: T)

  /** The outcome of an operation that may throw: `Ok` for a normal return, `Err` for the thrown error. */
  datatype Result<+T, +E> = Ok(value: T) | Err(error: E)
}
