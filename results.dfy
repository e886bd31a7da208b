/** Success/failure values for operations whose source reverts with an error message. */
module Results {

  /** A value-carrying outcome: the call returned `value`, or reverted with `error`. */
  datatype Result<+T, +E> = Success(value: T) | Failure(error: E)

  /** An outcome that carries no value: the call completed, or reverted with `error`. */
  datatype Outcome<+E> = Pass | Fail(error: E)

  /** Java's nullable references, for the one place where a null field matters. */
  datatype Option<+T> = None | Some(value: T)
}
