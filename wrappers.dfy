/** Option and Result, the two wrappers the model uses for values that may be
    missing and for computations that may raise. */
module Wrappers {

  datatype Option<+T> = None | Some(value: T)

  datatype Result<+T, +E> = Success(value: T) | Failure(error: E)
}
