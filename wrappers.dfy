/** Option and Result values shared by every module of the model. */
module Wrappers {
  datatype Option<T> = None | Some(value: T)

  /** The outcome of an operation that the source ends with a raised exception. */
  datatype Result<T> = Ok(value: T) | Err(error: string)
}
