/** Option and Result values, usable with `:-`. */
module Wrappers {

  /** `None` stands for JavaScript's `undefined` wherever a value may be absent. */
  datatype Option<+T> = None | Some(value: T)

  /** The outcome of a step that can throw: `Failure` carries the thrown message. */
  datatype Result<+T, +E> = Success(value: T) | Failure(error: E) {

    predicate IsFailure() {
      Failure?
    }

    function PropagateFailure<U>(): Result<U, E>
      requires Failure?
    {
      Failure(error)
    }

    function Extract(): T
      requires Success?
    {
      value
    }
  }
}
