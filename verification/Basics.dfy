/** Option and Result: values that may be nil, and the (value, error) pairs of the SDK. */
module Basics {
  datatype Option<+T> = None | Some(value: T)

  datatype Result<+T, +E> = Ok(value: T) | Err(error: E)
}
