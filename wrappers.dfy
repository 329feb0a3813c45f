/** Option and Result values shared by the components of the site. */
module Wrappers {

  /** A value that may be absent (`undefined` / `null` in the original program). */
  datatype Option<+T> = None | Some(value: T)

  /** The outcome of an operation that can throw. */
  datatype Result<+T, +E> = Success(value: T) | Failure(error: E)
}
