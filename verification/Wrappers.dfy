/** Option and Result types for values that may be absent and operations that may fail. */
module Wrappers {

  /** A value that may be absent: an omitted request field, or a call that raised. */
  datatype Option<+T> = None | Some(value: T)

  /** The outcome of an operation that either yields a value or fails with an error. */
  datatype Result<+T, +E> = Ok(value: T) | Err(error: E)

  /** The outcome of an operation that yields nothing on success. */
  datatype Outcome<+E> = Pass | Fail(error: E)
}
