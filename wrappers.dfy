/** Failure-carrying wrappers shared by the whole model. */
module Wrappers {

  /** A value that may be missing: a NULL column, a parse that failed, a storage call that errored. */
  datatype Option<+T> = None | Some(value: T)

  /** A value or an error message, for storage calls whose error text reaches the HTTP reply. */
  datatype Result<+T, +E> = Ok(value: T) | Err(error: E)
}
