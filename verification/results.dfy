/** Failure-carrying wrappers used across the model: an optional value and a
    result that is either a value or an error. */
module Results {

  /** A value that may be absent (Python's `None` versus a value). */
  datatype Option<+T> = None | Some(value: T)

  /** The outcome of an operation that may raise: a value or an error. */
  datatype Result<+T, +E> = Ok(value: T) | Err(error: E)
}
