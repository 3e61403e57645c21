/** Failure-compatible wrappers: Python's `None` results and raised exceptions. */
module Wrappers {

  datatype Option<+T> = None | Some(value: T)

  /** The outcome of a Python call: a value, or the exception it raised. */
  datatype Result<+T, +E> = Ok(value: T) | Err(error: E) {
    predicate IsFailure() { Err? }

    function PropagateFailure<U>(): Result<U, E>
      requires Err?
    {
      Err(error)
    }

    function Extract(): T
      requires Ok?
    {
      value
    }
  }

  /** The outcome of a Python statement that returns nothing but may raise. */
  datatype Outcome<+E> = Pass | Fail(error: E)

  /** The exception of a failed result, if any. */
  function FailureOf<T, E>(r: Result<T, E>): (o: Outcome<E>)
    ensures o.Pass? <==> r.Ok?
    ensures o.Fail? ==> o.error == r.error
  {
    if r.Ok? then Pass else Fail(r.error)
  }
}
