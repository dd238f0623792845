/** The two failure-carrying value types used throughout the model. */
module Results {
  datatype Option<+T> = None | Some(value: T)

  /** Stands for a call that either returns or raises. */
  datatype Result<+T, +E> = Success(value: T) | Failure(error: E) {
    predicate IsFailure() {
      Failure?
    }

    function PropagateFailure<U>(): Result<U, E>
      requires Failure?
    {
      Failure(error)
    }

    function Extract(): T
      requires Success?
    {
      value
    }
  }
}
