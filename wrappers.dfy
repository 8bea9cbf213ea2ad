/** Failure-carrying datatypes shared by the model. */
module Wrappers {

  /** A value that may be absent; for an object attribute, None means "never assigned". */
  datatype Option<+T> = None | Some(value: T)

  /** The value of a computation that either produces a result or raises an error. */
  datatype Result<+T, +E> = Ok(value: T) | Err(error: E)

  /** The completion of a step that produces nothing but may raise an error. */
  datatype Outcome<+E> = Pass | Fail(error: E)
}
