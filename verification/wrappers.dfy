/** The wrappers used throughout the model: an optional value (Python's `None`
    default arguments) and a success-or-error result (Python's raised
    exceptions, returned instead of thrown). */
module Wrappers {

  datatype Option<+T> = None | Some(value: T)

  datatype Result<+R, +E> = Success(value: R) | Failure(error: E)
}
