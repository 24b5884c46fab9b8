/** Optional values and results, as the Swift sources use `T?` and `throws`. */
module Wrappers {

  /** Swift's `Optional<T>`: `nil` or a wrapped value. */
  datatype Option<+T> = None | Some(value: T)

  /** The outcome of a throwing Swift function. */
  datatype Result<+T, +E> = Ok(value: T) | Err(error: E)
}
