/** Failure-carrying return values: `Option` for Python's `None`-or-value and
    `Result` for a value-or-exception outcome. */
module Wrappers {

  datatype Option<+T> = None | Some(value: T)

  datatype Result<+R, +E> = Success(value: R) | Failure(error: E)
}
