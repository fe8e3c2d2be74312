/** Failure-carrying datatypes shared by the model. */
module Wrappers {

  /** A value that may be absent: a conversion that failed, a dictionary that did not load. */
  datatype Option<+T> = None | Some(value: T)

  /** The outcome of a whole batch call: its output, or the error that aborted it. */
  datatype Result<+R, +E> = Success(value: R) | Failure(error: E)
}
