/** Option and Result, the failure-compatible types used throughout the model. */
module Wrappers {

  datatype Option<+T> = None | Some(value: T)

  /** A value or an error; `:-` propagates the error like Rust's `?`. */
  datatype Result<+T, +E> = Ok(value: T) | Err(error: E) {

    predicate IsFailure() {
      Err?
    }

    function PropagateFailure<U>(): Result<U, E>
      requires Err?
    {
      Err(error)
    }

    function Extract(): T
      requires Ok?
    {
      value
    }
  }

  /** Applies `f` to a success value and passes an error through unchanged. */
  function Then<T, U, E>(r: Result<T, E>, f: T -> Result<U, E>): (s: Result<U, E>)
    ensures r.Err? ==> s == Err(r.error)
    ensures r.Ok? ==> s == f(r.value)
  {
    match r
    case Ok(v) => f(v)
    case Err(e) => Err(e)
  }

  /** Forgets a success value, as Rust's `x?; Ok(())` does. */
  function Discard<T, E>(r: Result<T, E>): (s: Result<(), E>)
    ensures s.Ok? <==> r.Ok?
    ensures r.Err? ==> s == Err(r.error)
  {
    match r
    case Ok(_) => Ok(())
    case Err(e) => Err(e)
  }
}
