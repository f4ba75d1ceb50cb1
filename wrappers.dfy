/** The optional value and the success-or-error result used across the model. */
module Wrappers {

  /** An empty or a filled cell: Python's `None` or a value. */
  datatype Option<+T> = None | Some(value: T)

  /** The outcome of an operation that can raise: its value, or the error. */
  datatype Result<+T, +E> = Ok(value: T) | Err(error: E)
}
