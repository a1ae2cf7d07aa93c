/** Option and Result, used for PHP's null-or-value returns and for exceptions. */
module Wrappers {

  datatype Option<+T> = None | Some(value: T)

  /** Ok carries a returned value; Err carries the message of a thrown exception. */
  datatype Result<+T, +E> = Ok(value: T) | Err(error: E)
}
