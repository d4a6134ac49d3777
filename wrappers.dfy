/** Java's nullable references and thrown exceptions, as values. */
module Wrappers {

  /** A Java reference that may be null: `None` is null. */
  datatype Option<+T> = None | Some(value: T)

  /** The outcome of a Java call: a returned value, or the exception it throws. */
  datatype Result<+T, +E> = Success(value: T) | Failure(error: E)
  {
    predicate IsFailure()
    {
      Failure?
    }

    function PropagateFailure<U>(): Result<U, E>
      requires Failure?
    {
      Failure(error)
    }

    function Extract(): T
      requires Success?
    {
      value
    }
  }
}
