/** Option and Result types, and the Python exceptions that the handlers can raise. */
module Wrappers {

  datatype Option<+T> = None | Some(value: T)

  /** The two exceptions the modelled code raises: a missing dictionary key (`KeyError`)
      and an operation applied to a value of the wrong type (`TypeError`). */
  datatype Error = KeyError(key: string) | TypeError

  /** Either the value a handler returns or the exception it raises. Failure-compatible, so
      `:-` propagates the first exception, as Python's evaluation order does. */
  datatype Result<+T> = Ok(value: T) | Err(error: Error) {

    predicate IsFailure() {
      Err?
    }

    function PropagateFailure<U>(): Result<U>
      requires Err?
    {
      Err(error)
    }

    function Extract(): T
      requires Ok?
    {
      value
    }
  }
}
