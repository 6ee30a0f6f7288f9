/**
 * Small result types shared by every module: an optional value, a pass/fail
 * outcome of a validator, and a value-or-error result of an operation that
 * may raise.
 */
module Wrappers {

  datatype Option<T> = None | Some(value: T)
  {
    predicate IsSome() { Some? }

    function GetOr(default: T): T
    {
      match this
      case Some(v) => v
      case None => default
    }
  }

  datatype Outcome<E> = Pass | Fail(error: E)
  {
    predicate IsPass() { Pass? }
  }

  datatype Result<T, E> = Success(value: T) | Failure(error: E)
  {
    predicate IsSuccess() { Success? }
  }
}
