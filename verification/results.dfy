/** Failure-carrying wrappers used throughout the model. */
module Results {

  /** A value that may be absent; stands for a Java reference that may be null. */
  datatype Option<+T> = None | Some(value: T)

  /** Either a computed value or the error that stopped the computation. */
  datatype Result<+T, +E> = Ok(value: T) | Err(error: E)

  /** The outcome of a check that computes nothing: it passes or fails with an error. */
  datatype Validity<+E> = Pass | Fail(error: E)
}
