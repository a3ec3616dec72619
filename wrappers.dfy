/** Option, Result and Outcome: the shapes used for JavaScript's `null`/`undefined`
    and for the errors the source throws. */
module Wrappers {

  datatype Option<+T> = None | Some(value: T)

  datatype Result<+R, +E> = Success(value: R) | Failure(error: E)

  datatype Outcome<+E> = Pass | Fail(error: E)
}
