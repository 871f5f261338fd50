/** Option, Result and Outcome: the failure-carrying values the engine passes around
    where the Python code returns None or raises. */
module Wrappers {

  datatype Option<+T> = None | Some(value: T)

  /** A computation that produced a value or raised an error. */
  datatype Result<+T, +E> = Ok(value: T) | Err(error: E)

  /** A computation run for its effects that finished normally or raised an error. */
  datatype Outcome<+E> = Pass | Fail(error: E)
}
