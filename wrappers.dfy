/** Failure-carrying values shared by the other modules. */
module Wrappers {

  /** A value that may be absent, as a JSON field that is missing or null. */
  datatype Option<+T> = None | Some(value: T)

  /** The outcome of one stage: a value, or the reason the stage failed. */
  datatype Result<+T, +E> = Ok(value: T) | Err(error: E)
}
