/** Option and Result values shared by the decoder and the event sender. */
module Wrappers {

  /** An optional value; `None` stands for Go's `nil` error. */
  datatype Option<+T> = None | Some(value: T)

  /** The value of a computation that either succeeds or fails with an error. */
  datatype Result<+R, +E> = Success(value: R) | Failure(error: E)
}
