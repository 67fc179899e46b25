/** The optional-value and success-or-error datatypes shared by the other modules. */
module Wrappers {

  /** A cell that may be missing: pandas' NaN in a float column. */
  datatype Option<+T> = None | Some(value: T)

  /** The outcome of a step that can raise. */
  datatype Result<+T, +E> = Ok(value: T) | Err(error: E)
}
