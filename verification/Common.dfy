/** Small shared datatypes: optional values and the results of operations that may raise. */
module Common {

  datatype Option<+T> = None | Some(value: T)

  /** Ok carries what an operation returned, Err what it raised. */
  datatype Result<+T, +E> = Ok(value: T) | Err(error: E) {
    predicate IsFailure() {
      Err?
    }

    function PropagateFailure<U>(): Result<U, E>
      requires Err?
    {
      Err(error)
    }

    function Extract(): T
      requires Ok?
    {
      value
    }
  }
}
