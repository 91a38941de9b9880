/** Failure-carrying wrappers shared by every module of the model. */
module Common {

  /** A value that may be missing (JavaScript's `undefined` / `null`). */
  datatype Option<+T> = None | Some(value: T)

  /** The outcome of an operation that can fail: a value, or an error (a revert, a thrown exception). */
  datatype Result<+T, +E> = Ok(value: T) | Err(error: E)
}
