/** Failure-carrying results shared by the game's documents and handlers. */
module Outcomes {

  /** A value that may be absent, as a Python `dict` lookup that can miss. */
  datatype Option<+T> = None | Some(value: T)

  /** The only failure the handlers raise: a `dict` subscript on a missing key. */
  datatype Error = KeyError(key: string)

  /** The outcome of a handler step: the new value, or the exception it raised. */
  datatype Result<+T> = Ok(value: T) | Err(error: Error)
}
