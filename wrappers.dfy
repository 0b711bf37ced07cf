/** Optional values and success-or-error results, shared by the other modules. */
module Wrappers {

  datatype Option<+T> = None | Some(value: T)

  datatype Result<+T, +E> = Ok(value: T) | Err(error: E)

  /** A thrown JavaScript value: an `Error` with its message, or anything else. */
  datatype Exception = Error(message: string) | NonError
}
