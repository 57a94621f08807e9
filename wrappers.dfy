/** The outcome of an operation that either produces a value or reports an error. */
module Wrappers {

  datatype Result<+T, +E> = Ok(value: T) | Err(error: E)
}
