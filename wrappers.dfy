/** Failure-carrying values shared by the other modules. */
module Wrappers {

  datatype Option<+T> = None | Some(value: T)

  /** A value, or the error a collaborator (or a check) returned instead. */
  datatype Result<+T, +E> = Ok(value: T) | Err(error: E)
}
