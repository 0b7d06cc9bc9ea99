/** What every module uses for a value that may be absent, a computation that may fail, and a check that
    yields nothing but its failure. */
module Wrappers {

  datatype Option<+T> = None | Some(value: T) {
    predicate IsFailure() { None? }

    function PropagateFailure<U>(): Option<U>
      requires None?
    {
      None
    }

    function Extract(): T
      requires Some?
    {
      value
    }
  }

  datatype Result<+T, +E> = Ok(value: T) | Err(failure: E) {
    predicate IsFailure() { Err? }

    function PropagateFailure<U>(): Result<U, E>
      requires Err?
    {
      Err(failure)
    }

    function Extract(): T
      requires Ok?
    {
      value
    }
  }

  /** A check; `And` reports the first failure of two. */
  datatype Guard<+E> = Pass | Fail(failure: E) {
    predicate IsFailure() { Fail? }

    function PropagateFailure<U>(): Result<U, E>
      requires Fail?
    {
      Err(failure)
    }

    function Extract(): ()
      requires Pass?
    {
      ()
    }

    function And(next: Guard<E>): Guard<E> { if Fail? then this else next }
  }
}
