/** The two result shapes the modules share: a value that may be absent (Python's `None`)
    and a computation that may raise. */
module Wrappers {
  datatype Option<+T> = None | Some(value: T)

  datatype Result<+T, +E> = Success(value: T) | Failure(error: E)

  type Byte = b: nat | b < 256
}
