/** Option and Result, used for nullable columns and for operations that can fail. */
module Wrappers {

  /** A value that may be absent: a nullable field is `None` when it holds SQL NULL / Python None. */
  datatype Option<+T> = None | Some(value: T)

  /** The outcome of an operation that either yields a value or reports a categorised error. */
  datatype Result<+T, +E> = Ok(value: T) | Err(error: E)
}
