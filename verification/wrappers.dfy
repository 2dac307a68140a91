/** Option and Result values used by every module of the model. */
module Wrappers {
  datatype Option<T> = None | Some(value: T)

  /** The outcome of an operation that can raise: `Err` stands for the exception. */
  datatype Result<T> = Ok(value: T) | Err(error: string)
}
