/** The two small result types the other modules share. */
module Wrappers {

  /** Python's `X | None`. */
  datatype Option<+T> = None | Some(value: T)

  /** A returned value, or the message of the `ValueError` the source raises instead. */
  datatype Result<+T> = Success(value: T) | Failure(error: string)
}
