/** Failure-compatible result type shared by the transport models.  A Python
    exception raised by an operation becomes an `Err` carrying the variant
    that names it; a normal return becomes an `Ok`. */
module Results {

  datatype Result<+T, +E> = Ok(value: T) | Err(error: E) {

    predicate IsFailure() {
      Err?
    }

    function PropagateFailure<U>(): Result<U, E>
      requires Err?
    {
      Err(error)
    }

    function Extract(): T
      requires Ok?
    {
      value
    }
  }

  datatype Option<+T> = None | Some(value: T)
}
