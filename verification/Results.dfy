/** Result types standing for the error returns of the Go code. */
module Results {

  datatype Option<+T> = None | Some(value: T)

  /** The second component of a Go `(value, error)` pair decides which case applies. */
  datatype Result<+T, +E> = Success(value: T) | Failure(error: E)

  /** What a Go function returning only an `error` reports. */
  datatype Outcome<+E> = Pass | Fail(error: E) {
    predicate IsFailure() { Fail? }

    /** Success only if the condition holds, and then always if nothing fails without a reason. */
    predicate Decided(reliable: bool, condition: bool) {
      match this
      case Pass => condition
      case Fail(_) => reliable ==> !condition
    }

    function PropagateFailure(): Outcome<E>
      requires Fail?
    {
      this
    }
  }
}
