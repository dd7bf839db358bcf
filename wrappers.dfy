/** Failure-carrying wrappers shared by the modules of this model. */
module Wrappers {

  /** A value that may be absent: Go's nil pointer, nil map, or a missing map key. */
  datatype Option<+T> = None | Some(value: T)

  /** A computation that either produced a value or stopped with an error message
      (a Go error return, or a panic with that message). */
  datatype Result<+T> = Ok(value: T) | Err(error: string)
}
