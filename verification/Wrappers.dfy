/** Success/failure and presence datatypes shared by every module. */
module Wrappers {

  datatype Option<+T> = None | Some(value: T) {
    function GetOr(default: T): T {
      match this
      case Some(v) => v
      case None => default
    }
  }

  datatype Result<+R, +E> = Success(value: R) | Failure(error: E) {
    predicate IsFailure() { Failure? }

    function PropagateFailure<U>(): Result<U, E>
      requires IsFailure()
    {
      Failure(error)
    }

    function Extract(): R
      requires !IsFailure()
    {
      value
    }
  }

  datatype Requirement<+E> = Met | Unmet(error: E) {
    predicate IsFailure() { Unmet? }

    function PropagateFailure<U>(): Result<U, E>
      requires IsFailure()
    {
      Failure(error)
    }
  }

  /** The check a caller makes before going on. */
  function Need<E>(condition: bool, error: E): Requirement<E> {
    if condition then Met else Unmet(error)
  }
}
