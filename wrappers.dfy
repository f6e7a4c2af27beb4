/** The success-or-error value used wherever the program raises and catches an exception. */
module Wrappers {
  datatype Result<+T, +E> = Ok(value: T) | Err(error: E)
}
