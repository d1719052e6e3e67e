/** Failure-carrying wrappers shared by every module of the model. */
module Base {

  /** A value that may be absent (a missing map entry, a failed view call). */
  datatype Option<+T> = None | Some(value: T)

  /** The result of an operation that either produces a value or throws. */
  datatype Result<+T, +E> = Ok(value: T) | Err(error: E)
}
