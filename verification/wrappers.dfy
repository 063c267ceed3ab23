/** Wrappers shared by the calculator modules. */
module Wrappers {

  /** A value that may be absent: a parse that failed, a pending operator that is `null`. */
  datatype Option<+T> = None | Some(value: T)

  /** The outcome of an operation that can throw instead of returning. */
  datatype Result<+T, +E> = Success(value: T) | Failure(error: E)
}
