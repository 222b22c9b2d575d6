/** Small failure-carrying datatypes shared by the other modules. */
module Wrappers {

  /** An optional value; `None` stands for JavaScript's `undefined` or `NaN` where the model says so. */
  datatype Option<+T> = None | Some(value: T)

  /** Either a value or the error a JavaScript call would throw. */
  datatype Result<+T, +E> = Success(value: T) | Failure(error: E)
}
