/** Result types shared by every module. */
module Wrappers {

  datatype Option<+T> = None | Some(value: T) {
    predicate IsFailure() { None? }

    function PropagateFailure<U>(): Option<U>
      requires None?
    {
      None
    }

    function Extract(): T
      requires Some?
    {
      value
    }
  }

  /** The model of `anyhow::Result`: a value, or the reason there is none. */
  datatype Result<+T, +E> = Success(value: T) | Failure(error: E)
}
