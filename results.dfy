/** Option and Result, the failure-compatible wrappers the rest of the model uses.
    A Python exception is an `Err` carrying the name of the exception class (or,
    for the configuration validator, the message it raises with). */
module Results {

  datatype Option<+T> = None | Some(value: T)

  datatype Result<+T> = Ok(value: T) | Err(error: string) {

    predicate IsFailure() {
      Err?
    }

    function PropagateFailure<U>(): Result<U>
      requires Err?
    {
      Err(error)
    }

    function Extract(): T
      requires Ok?
    {
      value
    }
  }
}
