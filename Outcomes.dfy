/** Option and Result, the failure-compatible wrappers the rest of the model uses
    in place of Python's None and of raised exceptions. */
module Outcomes {

  datatype Option<+T> = None | Some(value: T)

  /** Either a value or the error a Python call would have raised. */
  datatype Result<+T, +E> = Ok(value: T) | Err(error: E) {

    predicate IsFailure() {
      Err?
    }

    function PropagateFailure<U>(): Result<U, E>
      requires Err?
    {
      Err(error)
    }

    function Extract(): T
      requires Ok?
    {
      value
    }
  }

  /** A byte of an encoded buffer. */
  type byte = b: int | 0 <= b < 256

  type Bytes = seq<byte>
}
