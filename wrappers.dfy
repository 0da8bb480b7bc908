/** Failure-carrying result types shared by the modules of this model. */
module Wrappers {

  datatype Option<+T> = None | Some(value: T)

  /** Either a value or the error (exception) an operation raised instead. */
  datatype Result<+T, +E> = Ok(value: T) | Err(error: E)
}
