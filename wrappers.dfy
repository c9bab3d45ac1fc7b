/** Option and Result values used by the calculator model. */
module Wrappers {

  /** A value that may be absent; `None` stands for JavaScript's `NaN` or `null`. */
  datatype Option<+T> = None | Some(value: T)

  /** The outcome of a step that can fail with a validation error. */
  datatype Result<+T, +E> = Ok(value: T) | Err(error: E)
}
