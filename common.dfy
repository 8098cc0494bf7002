/** Option and Result wrappers used for the errors the Python code raises. */
module Common {

  datatype Option<+T> = None | Some(value: T)

  /** A computation that either yields a value or raises an error. */
  datatype Result<+T, +E> = Success(value: T) | Failure(error: E)

  /** A computation with no value that either completes or raises an error. */
  datatype Outcome<+E> = Pass | Fail(error: E)
}
