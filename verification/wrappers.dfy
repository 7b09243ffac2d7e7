/** Failure-compatible wrappers for the model: `Option` stands for Python's
    `None`-or-value returns, `Result` for operations that raise. */
module Wrappers {

  datatype Option<+T> = None | Some(value: T)

  datatype Result<+R, +E> = Success(value: R) | Failure(error: E)
}
