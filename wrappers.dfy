/** Failure-carrying values for the operations that throw (atob, the Int16Array view, createBuffer). */
module Wrappers {

  /** An optional value; `None` stands for a JavaScript call that threw. */
  datatype Option<+T> = None | Some(value: T)

  /** A value or the error that prevented it. */
  datatype Result<+T, +E> = Success(value: T) | Failure(error: E)
}
