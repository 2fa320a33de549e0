/** Failure-compatible wrappers shared by the lowering model. */
module Base {

  /** An optional value: a landing pad that may be absent, a receiver argument a static call lacks. */
  datatype Option<+T> = None | Some(value: T)

  /** The outcome of a lowering step: the new builder state, or the error that aborts lowering. */
  datatype Result<+T, +E> = Ok(value: T) | Err(error: E) {

    predicate IsFailure() {
      Err?
    }

    function PropagateFailure<U>(): Result<U, E>
      requires Err?
    {
      Err(error)
    }

    function Extract(): T
      requires Ok?
    {
      value
    }
  }
}
