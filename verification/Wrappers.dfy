/** The two failure types used throughout the model, and counting. */
module Wrappers {

  datatype Option<+T> = None | Some(value: T)

  datatype Result<+T, +E> = Success(value: T) | Failure(error: E)

  function Bit(b: bool): nat {
    if b then 1 else 0
  }
}
