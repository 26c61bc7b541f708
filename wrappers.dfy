/** Option and Result, the two failure-aware value types used throughout the model. */
module Wrappers {

  /** Python's `None` versus a present value. */
  datatype Option<+T> = None | Some(value: T)

  /** A value, or the exception that an operation raised instead of returning. */
  datatype Result<+T, +E> = Ok(value: T) | Err(error: E)
}
