/** The optional-value and result wrappers used throughout the model. */
module Wrappers {

  datatype Option<+T> = None | Some(value: T)

  /** The (value, error) pairs that Go functions return, as one value. */
  datatype Result<+R, +E> = Success(value: R) | Failure(error: E)
}
