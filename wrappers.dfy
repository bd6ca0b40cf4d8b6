/** Small wrapper datatypes shared by the other modules: Option stands
    for a Go pointer that may be nil, Result for a value or an error, Outcome
    for an operation that only succeeds or fails. */
module Wrappers {

  datatype Option<+T> = None | Some(value: T)

  datatype Result<+R, +E> = Success(value: R) | Failure(error: E)

  datatype Outcome<+E> = Pass | Fail(error: E)
}
