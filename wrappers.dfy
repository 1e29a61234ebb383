/** Option and Result, for values that may be missing and calls that may fail. */
module Wrappers {

  /** A value that may be absent, such as a field missing from a JSON request body. */
  datatype Option<+T> = None | Some(value: T)

  /** The result of a collaborator call that either returns a value or throws. */
  datatype Result<+T, +E> = Ok(value: T) | Err(error: E)
}
