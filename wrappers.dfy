/** Option and Result, used for JavaScript's `undefined`/`null` and for thrown errors. */
module Wrappers {

  datatype Option<+T> = None | Some(value: T)

  /** `Failure` carries the message of the Error a JavaScript function throws. */
  datatype Result<+R, +E> = Success(value: R) | Failure(error: E)
}
