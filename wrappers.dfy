/** Failure-compatible wrappers shared by the whole model. */
module Wrappers {

  /** `None` is a missing value (a NaN sample, an absent key). */
  datatype Option<+T> = None | Some(value: T)

  /** The outcome of an operation that can raise. */
  datatype Result<+T, +E> = Ok(value: T) | Err(error: E)
}
