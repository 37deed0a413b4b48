/** Failure-compatible wrappers used for the exceptions the model raises. */
module Wrappers {

  datatype Option<T> = None | Some(value: T)

  /** A computation that returns a value or raises an error. */
  datatype Result<T, E> = Ok(value: T) | Err(error: E) {
    predicate IsFailure() { Err? }

    function PropagateFailure<U>(): Result<U, E>
      requires Err?
    {
      Err(error)
    }

    function Extract(): T
      requires Ok?
    {
      value
    }
  }

  /** A check that passes or raises an error. */
  datatype Outcome<E> = Pass | Fail(error: E)
}
