/** The error kinds of this model (the tables only fix that an error occurs), and the value-or-error results its operations return. */
module Outcomes {

  /** Why an operation produced no value. */
  datatype Error =
    | OutOfBounds       // an index or span boundary names no segment of the path
    | KeyNotFound       // no segment equals the key, or the match has no segment after it
    | ConversionFailed  // the segment holds no literal of the requested kind, or it is out of range

  datatype Result<T> = Ok(value: T) | Err(error: Error)

  datatype Option<T> = None | Some(value: T)
}
