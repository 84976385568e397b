/** Result and option types shared by every component. */
module Prelude {

  datatype Option<+T> = None | Some(value: T)

  /** A returned value or the error a raising function ends with. */
  datatype Result<+T, +E> = Ok(value: T) | Err(error: E) {
    predicate IsFailure() {
      Err?
    }

    function PropagateFailure<U>(): Result<U, E>
      requires Err?
    {
      Err(error)
    }

    function Extract(): T
      requires Ok?
    {
      value
    }
  }
}
