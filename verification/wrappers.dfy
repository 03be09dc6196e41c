/** Failure-compatible values shared by every module of the model. */
module Wrappers {
  datatype Option<+T> = None | Some(value: T)

  /** A Python call that returns a value or raises a fixed error code. */
  datatype Result<+T, +E> = Ok(value: T) | Err(error: E) {
    predicate IsFailure() {
      Err?
    }

    function PropagateFailure<U>(): Result<U, E>
      requires Err?
    {
      Err(error)
    }

    function Extract(): T
      requires Ok?
    {
      value
    }
  }
}
