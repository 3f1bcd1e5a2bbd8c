/** Failure-compatible wrappers: a Python call either returns a value or raises. */
module Wrappers {

  datatype Option<+T> = None | Some(value: T)

  /** The outcome of an expression that may raise: its value, or the exception raised. */
  datatype Result<+T, +E> = Success(value: T) | Failure(error: E) {
    predicate IsFailure() {
      Failure?
    }

    function PropagateFailure<U>(): Result<U, E>
      requires Failure?
    {
      Failure(error)
    }

    function Extract(): T
      requires Success?
    {
      value
    }
  }

  /** The outcome of a statement run for its effect: it finished, or it raised. */
  datatype Outcome<+E> = Pass | Fail(error: E)

  /** Forgets the value of a result, keeping only whether (and what) it raised. */
  function OutcomeOf<T, E>(r: Result<T, E>): Outcome<E>
  {
    if r.Success? then Pass else Fail(r.error)
  }
}
