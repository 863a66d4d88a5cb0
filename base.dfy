/** Failure-carrying return values shared by the other modules. */
module Base {

  datatype Option<+T> = None | Some(value: T)

  /** An operation that yields a value or fails with an error. */
  datatype Result<+T, +E> = Success(value: T) | Failure(error: E)

  /** An operation that yields nothing but may fail with an error. */
  datatype Outcome<+E> = Pass | Fail(error: E)
}
