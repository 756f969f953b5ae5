/** Option and Result: the error-returning idiom used in place of thrown errors. */
module Wrappers {

  datatype Option<+T> = None | Some(value: T)

  /** Either the value an operation returns or the error it raises. */
  datatype Result<+R, +E> = Ok(value: R) | Err(error: E)
}
