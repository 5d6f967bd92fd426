/** Optional values and results with an error, shared by the ledger modules. */
module Wrappers {

  /** A value that may be absent: an omitted request field or query parameter, or JavaScript's `null`. */
  datatype Option<T> = None | Some(value: T)

  /** The outcome of an operation that either succeeds with a value or fails with an error. */
  datatype Result<T, E> = Ok(value: T) | Err(error: E)
}
