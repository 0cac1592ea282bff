/** Failure-compatible results for the decoder: every read either yields a
    value or fails because the input ran out (Java's EOFException). */
module Wrappers {

  /** The only failure the decoder knows: fewer bytes left than a read needs. */
  datatype ReadError = EndOfInput

  /** A read that produced a value, or the error that stopped it. */
  datatype Result<+T> = Ok(value: T) | Failure(error: ReadError) {

    predicate IsFailure() {
      Failure?
    }

    function PropagateFailure<U>(): Result<U>
      requires Failure?
    {
      Failure(error)
    }

    function Extract(): T
      requires Ok?
    {
      value
    }
  }
}
