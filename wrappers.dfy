/** Failure-carrying result types shared by the model. */
module Wrappers {

  /** A value that may be absent: JavaScript's `null` / `undefined`. */
  datatype Option<+T> = None | Some(value: T)

  /** The outcome of a request handler: a value or an error response. */
  datatype Result<+R, +E> = Ok(value: R) | Err(error: E)
}
