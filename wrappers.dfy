// Option and Result, for the source's `Option<T>` and `Result<T, &str>`.
module Wrappers {
  datatype Option<T> = None | Some(value: T)

  datatype Result<T> = Ok(value: T) | Err(error: string)
}
