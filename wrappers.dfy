/** Failure-carrying result, standing in for the exception the loader throws. */
module Wrappers {
  datatype Result<+T, +E> = Ok(value: T) | Err(error: E)
}
