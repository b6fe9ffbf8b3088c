/** Option and Result, the model's stand-ins for `undefined` and for a thrown error. */
module Wrappers {

  /** `None` is JavaScript's `undefined`; `Some(v)` is a present value. */
  datatype Option<+T> = None | Some(value: T)

  /** `Failure(e)` is a rejected promise (a thrown error) carrying its message. */
  datatype Result<+R, +E> = Success(value: R) | Failure(error: E)
}
