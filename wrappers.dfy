// Option and Result wrappers shared by every module of the model.
// Result.Err carries the exact message the service throws or responds with.

module Wrappers {
  datatype Option<T> = None | Some(value: T)

  datatype Result<T> = Ok(value: T) | Err(msg: string)
}
