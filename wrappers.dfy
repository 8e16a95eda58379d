/** Failure-carrying values shared by the other modules. */
module Wrappers {

  datatype Option<+T> = None | Some(value: T)

  /** A computation that either produces a value or stops the process with an exit code. */
  datatype Result<+T> = Ok(value: T) | Exit(code: int)
}
