/** Wrappers used throughout the model: an optional value (Python's `None`
    or a value) and a result that is either a value or the error an
    exception would have carried. */
module Wrappers {

  datatype Option<+T> = None | Some(value: T)

  datatype Result<+R, +E> = Success(value: R) | Failure(error: E)
}
