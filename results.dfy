/** Option and Result values used to model Python's `None` returns and exceptions. */
module Results {

  datatype Option<+T> = None | Some(value: T)

  /** `Err` stands for a raised exception; failure-compatible, so `:-` propagates it. */
  datatype Result<+T, +E> = Ok(value: T) | Err(error: E) {

    predicate IsFailure() {
      Err?
    }

    function PropagateFailure<U>(): Result<U, E>
      requires Err?
    {
      Err(error)
    }

    function Extract(): T
      requires Ok?
    {
      value
    }
  }
}
