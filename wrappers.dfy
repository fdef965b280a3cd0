/** Option and Result, the two failure-carrying shapes the model needs. */
module Wrappers {

  /** A Swift optional: `nil` or a value. */
  datatype Option<+T> = None | Some(value: T)

  /** The outcome of a Swift `throws` call: a value, or the error it threw. */
  datatype Result<+R, +E> = Success(value: R) | Failure(error: E)
}
