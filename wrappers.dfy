/** Failure-carrying values used across the model in place of Python exceptions. */
module Wrappers {

  datatype Option<+T> = None | Some(value: T)

  /** Ok carries the result; Err carries what the Python code raises or exits with. */
  datatype Result<+T, +E> = Ok(value: T) | Err(error: E)
}
