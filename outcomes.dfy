/** Results of operations that throw in the source, and optional capabilities. */
module Outcomes {
  /** A value, or the error an operation throws instead of producing one. */
  datatype Result<+T, +E> = Ok(value: T) | Err(error: E)

  /** Success, or the error an operation without a result throws. */
  datatype Outcome<+E> = Pass | Fail(error: E)

  /** A capability an element type may or may not have. */
  datatype Option<+T> = None | Some(value: T)
}
