/** Option and Result values: Python's None and raised exceptions, made explicit. */
module Wrappers {

  /** A value that may be missing: Python's None, pandas' NaN. */
  datatype Option<+T> = None | Some(value: T)

  /** The outcome of a Python call that may raise. */
  datatype Result<+T, +E> = Ok(value: T) | Err(error: E) {
    predicate IsFailure() {
      Err?
    }

    function PropagateFailure<U>(): Result<U, E>
      requires Err?
    {
      Err(error)
    }

    function Extract(): T
      requires Ok?
    {
      value
    }
  }
}
