/** Failure-carrying values used throughout the model: an optional value
    (a Go reference that may be nil) and a result that is either a value or an
    error message (a Go `(value, error)` pair). */
module Outcomes {

  datatype Option<+T> = None | Some(value: T)

  datatype Result<+T> = Ok(value: T) | Err(error: string)
}
