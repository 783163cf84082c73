/** Failure-carrying results: the model's stand-in for a JavaScript `throw`. */
module Wrappers {

  datatype Option<+T> = None | Some(value: T)

  /** The result of an operation that returns a value or throws `error`. */
  datatype Result<+R, +E> = Success(value: R) | Failure(error: E)

  /** The result of an operation that returns nothing or throws `error`. */
  datatype Outcome<+E> = Pass | Fail(error: E)
}
