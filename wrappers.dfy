/** Failure-carrying wrappers used by the worker model. */
module Wrappers {

  /** A value that may be absent; `None` also stands for Go's nil error. */
  datatype Option<+T> = None | Some(value: T)

  /** Either a value or the error that prevented producing it. */
  datatype Result<+R, +E> = Success(value: R) | Failure(error: E)
}
