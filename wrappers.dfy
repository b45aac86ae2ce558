/** Option and Result: the model's stand-ins for Go's (value, ok) and (value, error) pairs. */
module Wrappers {

  datatype Option<+T> = None | Some(value: T)

  /** A Go `(T, error)` return: either a value or an error message, never both. */
  datatype Result<+T> = Ok(value: T) | Err(error: string)
}
