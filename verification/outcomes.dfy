/** Nullable values and thrown errors, as plain datatypes. */
module Outcomes {

  /** A JavaScript value that may be `null` (or absent). */
  datatype Option<+T> = None | Some(value: T)

  /** The result of an operation that either returns a value or throws. */
  datatype Result<+T, +E> = Ok(value: T) | Err(error: E)
}
