/**
 * Failure-carrying results used across the model: Java's exceptions become
 * the `Err`/`Fail` cases, `null` becomes `None`.
 */
module Wrappers {

  datatype Option<+T> = None | Some(value: T)

  datatype Result<+T, +E> = Ok(value: T) | Err(error: E)
  {
    predicate IsFailure() { Err? }

    function PropagateFailure<U>(): Result<U, E>
      requires Err?
    {
      Err(error)
    }

    function Extract(): T
      requires Ok?
    {
      value
    }
  }

  /** The outcome of a Java `void` method that may throw. */
  datatype Outcome<+E> = Pass | Fail(error: E)
}
