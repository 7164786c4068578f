/** Result types shared by the models. */
module Outcomes {

  /** A value or Python's `None`. */
  datatype Option<+T> = None | Some(value: T)

  /** A returned value, or the exception the source raises instead. */
  datatype Result<+T, +E> = Ok(value: T) | Err(error: E)
}
