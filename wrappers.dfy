/** Failure-carrying result types shared by every stage of the interpreter. */
module Wrappers {

  datatype Option<T> = None | Some(value: T)

  /** The outcome of a step that may fail: a value, or the error that the
      source raises as an exception at that point. */
  datatype Result<T, E> = Ok(value: T) | Err(error: E)
  {
    predicate IsFailure() { Err? }

    function PropagateFailure<U>(): Result<U, E>
      requires Err?
    {
      Err(error)
    }

    function Extract(): T
      requires Ok?
    {
      value
    }
  }
}
