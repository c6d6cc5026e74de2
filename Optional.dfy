/** Optional values and results, standing in for Swift's `T?` and `throws`. */
module Optional {

  /** Swift's `Optional<T>`: `nil` or a wrapped value. */
  datatype Option<+T> = None | Some(value: T)

  /** The outcome of a Swift function that `throws`: a value or the thrown error. */
  datatype Result<+T, +E> = Success(value: T) | Failure(error: E)
}
