/** Explicit success/failure values for every place where the server catches an
    exception and substitutes something else. */
module Outcomes {

  /** A value that may be absent: an asset lookup that found nothing. */
  datatype Option<+T> = None | Some(value: T)

  /** The outcome of a step that may throw: its value, or why it failed. */
  datatype Result<+T> = Success(value: T) | Failure(reason: string)
}
