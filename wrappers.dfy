/**
 * Option, Result and Patch: the value shapes shared by every module of the model.
 * Option stands for Python's `None`-or-value, Result for "returned or raised",
 * and Patch for a field of a partial-update payload that was either left unset
 * or explicitly supplied.
 */
module Wrappers {

  /** A value or Python's `None`. Failure-compatible, so `:-` propagates `None`. */
  datatype Option<+T> = None | Some(value: T) {

    predicate IsFailure() {
      None?
    }

    function PropagateFailure<U>(): Option<U>
      requires None?
    {
      None
    }

    function Extract(): T
      requires Some?
    {
      value
    }

    /** The Python idiom `x if x is not None else default`. */
    function GetOr(default: T): T {
      match this
      case Some(v) => v
      case None => default
    }
  }

  /** A call that either returned a value or raised an error. */
  datatype Result<+R, +E> = Success(value: R) | Failure(error: E) {

    predicate IsFailure() {
      Failure?
    }

    function PropagateFailure<U>(): Result<U, E>
      requires Failure?
    {
      Failure(error)
    }

    function Extract(): R
      requires Success?
    {
      value
    }
  }

  /**
   * One field of a partial update: `Keep` when the caller did not set it
   * (pydantic's `exclude_unset`), `Put(v)` when it did, even to `None`.
   */
  datatype Patch<+T> = Keep | Put(value: T) {

    /** The stored value after the patch is applied to `current`. */
    function Over(current: T): T {
      match this
      case Keep => current
      case Put(v) => v
    }
  }
}
