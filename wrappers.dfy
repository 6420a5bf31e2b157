/** Option and Result, used for the optional `error` field and for JavaScript
    operations that may throw. `Result` supports `:-`: a thrown value aborts
    the rest of the computation, as it does in the source. */
module Wrappers {
  datatype Option<+T> = None | Some(value: T)

  datatype Result<+T, +E> = Ok(value: T) | Err(error: E) {
    predicate IsFailure() {
      Err?
    }

    function PropagateFailure<U>(): Result<U, E>
      requires Err?
    {
      Err(error)
    }

    function Extract(): T
      requires Ok?
    {
      value
    }
  }
}
