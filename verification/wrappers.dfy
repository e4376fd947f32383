/** Failure-compatible wrappers used throughout the planner model. */
module Wrappers {

  /** An optional value, as returned by `Optional` and nullable getters. */
  datatype Option<+T> = None | Some(value: T)

  /** The outcome of a planning step: a value, or the error that aborted planning. */
  datatype Result<+R, +E> = Ok(value: R) | Err(error: E) {

    predicate IsFailure() {
      Err?
    }

    function PropagateFailure<U>(): Result<U, E>
      requires Err?
    {
      Err(error)
    }

    function Extract(): R
      requires Ok?
    {
      value
    }
  }
}
