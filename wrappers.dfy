/** Option and Result: the empty model slot and the success-or-exception outcome of a foreign call. */
module Wrappers {

  datatype Option<+T> = None | Some(value: T)

  /** The outcome of a call that either returns a value or raises an exception carrying a message. */
  datatype Result<+R, +E> = Success(value: R) | Failure(error: E)
}
