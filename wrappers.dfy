/** Option and Result values standing for Python's `None` and for a raised exception. */
module Wrappers {

  /** `None` is Python's `None`; `Some(v)` a present value. */
  datatype Option<+T> = None | Some(value: T)

  /** `Failure(e)` is an operation that raised `e` instead of returning. */
  datatype Result<+T, +E> = Success(value: T) | Failure(error: E)
}
