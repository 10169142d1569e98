/** Option and Result, the two shapes the Swift code uses for "maybe nil" and
    for `Result<Success, Failure>` completions. */
module Wrappers {

  datatype Option<+T> = None | Some(value: T)

  datatype Result<+R, +E> = Success(value: R) | Failure(error: E)
}
