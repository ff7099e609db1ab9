/** Option and Result, the two failure-carrying shapes the model uses in place of
    Python's `None` and raised exceptions. */
module Wrappers {

  datatype Option<+T> = None | Some(value: T) {
    function GetOr(default: T): T {
      match this
      case Some(v) => v
      case None => default
    }
  }

  datatype Result<+R, +E> = Ok(value: R) | Err(error: E) {
    predicate IsFailure() {
      Err?
    }

    function PropagateFailure<U>(): Result<U, E>
      requires Err?
    {
      Err(error)
    }

    function Extract(): R
      requires Ok?
    {
      value
    }
  }

  /** Python's `given or fallback` for a number: `None` and the number's zero are
      falsy and give way to the fallback; any other value is kept. */
  function Or<T(==)>(given: Option<T>, zero: T, fallback: T): (r: T)
    ensures given.Some? && given.value != zero ==> r == given.value
    ensures given.None? || given.value == zero ==> r == fallback
  {
    if given.Some? && given.value != zero then given.value else fallback
  }
}
