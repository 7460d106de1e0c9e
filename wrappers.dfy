/** Failure-compatible wrappers shared by the whole model. */
module Wrappers {

  /** A value that may be missing (`T | null` after `?? null`). */
  datatype Option<+T> = None | Some(value: T) {
    predicate IsFailure() { None? }

    function PropagateFailure<U>(): Option<U>
      requires None?
    {
      None
    }

    function Extract(): T
      requires Some?
    {
      value
    }
  }

  /** The outcome of an operation that can throw. */
  datatype Result<+R, +E> = Success(value: R) | Failure(error: E) {
    predicate IsFailure() { Failure? }

    function PropagateFailure<U>(): Result<U, E>
      requires Failure?
    {
      Failure(error)
    }

    function Extract(): R
      requires Success?
    {
      value
    }
  }

  /** A JavaScript optional, nullable property: `x?: T | null`.
      `Undefined` is a missing key, `Null` an explicit null. */
  datatype Nullable<+T> = Undefined | Null | Present(value: T) {
    /** `x ?? null`: both undefined and null become null. */
    function OrNull(): (r: Option<T>)
      ensures r.Some? <==> Present?
      ensures Present? ==> r.value == value
    {
      if Present? then Some(value) else None
    }
  }
}
