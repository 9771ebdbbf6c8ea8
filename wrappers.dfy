/** Optional values and results, standing in for the source's null pointers and boolean error returns. */
module Wrappers {

  /** A slot that is either empty (a null pointer) or holds a value. */
  datatype Option<+T> = None | Some(value: T)

  /** A conversion that either yields a value or names why it failed. */
  datatype Result<+T, +E> = Ok(value: T) | Err(error: E)
}
