/** Optional values and error results shared by the other modules. */
module Wrappers {

  /** A value that may be absent: a C pointer that may be NULL. */
  datatype Option<+T> = None | Some(value: T)

  /** The outcome of an operation that may end in a fatal engine error. */
  datatype Result<+T, +E> = Success(value: T) | Failure(error: E) {
    predicate IsFailure() {
      Failure?
    }

    function PropagateFailure<U>(): Result<U, E>
      requires Failure?
    {
      Failure(error)
    }

    function Extract(): T
      requires Success?
    {
      value
    }
  }
}
