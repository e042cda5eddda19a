/** Optional values and handler outcomes. */
module Wrappers {

  /** A value that may be absent: a query parameter left off, a lookup that found nothing. */
  datatype Option<+T> = None | Some(value: T)

  /** The outcome of a handler: a response value, or an HTTP error raised instead. */
  datatype Result<+T, +E> = Ok(value: T) | Err(error: E)
}
