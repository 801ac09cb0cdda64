/** Option and Result, the shapes used throughout the model for C++'s npos returns and thrown exceptions. */
module Wrappers {
  datatype Option<T> = None | Some(value: T)

  /** `Err` stands for a `throw`; the error value names the exception the source raises. */
  datatype Result<T, E> = Ok(value: T) | Err(error: E)
}
