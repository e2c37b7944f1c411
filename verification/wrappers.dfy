/** Option and Result: the model's error values and optional values. */
module Wrappers {

  datatype Option<+T> = None | Some(value: T)

  /** A value or the error a Python call would have raised. */
  datatype Result<+T, +E> = Ok(value: T) | Err(error: E) {
    predicate IsFailure() {
      Err?
    }

    function PropagateFailure<U>(): Result<U, E>
      requires Err?
    {
      Err(error)
    }

    function Extract(): T
      requires Ok?
    {
      value
    }
  }
}
