/** Failure-carrying values shared by the other modules. */
module Wrappers {

  datatype Option<+T> = None | Some(value: T)

  datatype Result<+T, +E> = Ok(value: T) | Err(error: E)

  /** The completion of an operation that returns nothing: it finished, or it raised `error`. */
  datatype Outcome<+E> = Pass | Fail(error: E)
}
