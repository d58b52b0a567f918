/** Option and Result, the two failure-carrying wrappers the model uses for
    Swift optionals and for `throws` / `Result<Success, Failure>`. */
module Wrappers {

  datatype Option<+T> = None | Some(value: T)

  datatype Result<+R, +E> = Success(value: R) | Failure(error: E)

  /** Swift's `a ?? b` on two optionals. */
  function OrElse<T>(a: Option<T>, b: Option<T>): Option<T>
  {
    if a.Some? then a else b
  }
}
