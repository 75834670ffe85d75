/** Option and Result, the shapes used for JavaScript's `undefined` and for a thrown error. */
module Wrappers {

  /** `None` stands for a property that is absent, `undefined` or `null`. */
  datatype Option<+T> = None | Some(value: T)

  /** `Failure` stands for an exception the JavaScript code would throw. */
  datatype Result<+R, +E> = Success(value: R) | Failure(error: E)
}
