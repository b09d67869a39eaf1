/** Option and Result values used for the source's `Option` and its panics. */
module Wrappers {

  datatype Option<+T> = None | Some(value: T)

  /** A value or the reason the source would abort. */
  datatype Result<+T, +E> = Success(value: T) | Failure(error: E)
}
