/** Absence and failure as values: a lookup that may find nothing, and an
    operation that either yields a value or fails with an error. */
module Wrappers {

  datatype Option<+T> = None | Some(value: T)

  datatype Result<+R, +E> = Success(value: R) | Failure(error: E)
}
