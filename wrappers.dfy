/** Failure-carrying wrappers shared by every module: Rust's `Option` and `Result`. */
module Wrappers {

  /** An optional value: `None`, or `Some` of a value. */
  datatype Option<+T> = None | Some(value: T)

  /** The outcome of an operation that can fail: `Ok` of a value or `Err` of an error. */
  datatype Result<+T, +E> = Ok(value: T) | Err(error: E)
}
