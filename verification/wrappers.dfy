/** The two general-purpose wrappers the model uses: a computation that
    yields a value or fails with an error, and an optional value. */
module Wrappers {

  /** A compilation either yields a value or raises one of the compile errors. */
  datatype Result<+T, +E> = Success(value: T) | Failure(error: E)

  datatype Option<+T> = None | Some(value: T)
}
