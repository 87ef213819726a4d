/** Failure-carrying result types shared by the model. */
module Wrappers {

  /** A value that may be absent; usable with `:-`. */
  datatype Option<+T> = None | Some(value: T) {

    predicate IsFailure() {
      None?
    }

    function PropagateFailure<U>(): Option<U>
      requires None?
    {
      None
    }

    function Extract(): T
      requires Some?
    {
      value
    }
  }

  /** Either a successfully built value or the error that stopped it. */
  datatype Result<+T, +E> = Success(value: T) | Failure(error: E)
}
