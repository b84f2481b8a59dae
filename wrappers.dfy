/** Option and Result: the nullable values and the raised-or-returned outcomes of the model. */
module Wrappers {

  /** A Python value that may be `None`. */
  datatype Option<+T> = None | Some(value: T)

  /** A call that either returns `value` or raises an exception whose `str()` is `error`. */
  datatype Result<+R, +E> = Success(value: R) | Failure(error: E)
}
