/** Failure-carrying wrappers shared by the store and the bot models. */
module Wrappers {

  /** A value that may be absent: Python's `None` or a missing result. */
  datatype Option<+T> = None | Some(value: T)

  /** Either a value or the error that aborted the computation. */
  datatype Result<+R, +E> = Success(value: R) | Failure(error: E)
}
