/** Failure-carrying result types shared by every module of the model. */
module Wrappers {

  /** A value that may be absent (a JavaScript `undefined` slot, a skipped draw). */
  datatype Option<+T> = None | Some(value: T)

  /** The outcome of an operation that can throw: `Ok` with its value, or `Err`. */
  datatype Result<+T, +E> = Ok(value: T) | Err(error: E)
}
