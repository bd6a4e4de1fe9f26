/** Failure-compatible result types shared by every module of the model. */
module Wrappers {

  /** A value that may be absent: an optional query parameter, or a date string that did not parse. */
  datatype Option<+T> = None | Some(value: T)

  /** The outcome of an endpoint or of a decision: a value, or the reason it was refused. */
  datatype Result<+R, +E> = Success(value: R) | Failure(error: E)
}
