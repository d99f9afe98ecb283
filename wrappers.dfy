/** Option, Result and Outcome: the error paths of the modelled Python code
    (an exception raised, an exit code returned) become values of these types. */
module Wrappers {

  datatype Option<+T> = None | Some(value: T)

  datatype Result<+R, +E> = Success(value: R) | Failure(error: E) {
    predicate IsFailure() { Failure? }

    function PropagateFailure<U>(): Result<U, E>
      requires Failure?
    {
      Failure(error)
    }

    function Extract(): R
      requires Success?
    {
      value
    }
  }

  /** Pass, or fail with an error and no value. */
  datatype Outcome<+E> = Pass | Fail(error: E)
}
