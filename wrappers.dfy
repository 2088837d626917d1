/** Option and Result: Swift's `Optional` and the `throws` channel, as values. */
module Wrappers {

  /** Swift's `Optional<Wrapped>`: `.none` or `.some(value)`. */
  datatype Option<+T> = None | Some(value: T)

  /** The outcome of a Swift function that `throws`: the returned value, or the thrown error. */
  datatype Result<+R, +E> = Success(value: R) | Failure(error: E)
}
