/** Wrappers used across the model: a nullable value,
    a value-or-exception result, and a no-value outcome. */
module Wrappers {

  /** A Java reference that may be `null`. */
  datatype Option<+T> = None | Some(value: T)

  /** Either a normal return value or the exception that was thrown instead. */
  datatype Result<+R, +E> = Success(value: R) | Failure(error: E)

  /** A `void` call: it returns normally or throws. */
  datatype Outcome<+E> = Pass | Fail(error: E)
}
