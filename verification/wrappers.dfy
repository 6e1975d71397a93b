/** Failure-compatible wrappers used throughout the model. */
module Wrappers {

  /** An optional value; the manager's pending analysis is one of these. */
  datatype Option<+T> = None | Some(value: T)

  /** Either a value or the error that the Python code would raise instead. */
  datatype Result<+R, +E> = Success(value: R) | Failure(error: E) {

    predicate IsFailure() {
      Failure?
    }

    function PropagateFailure<U>(): Result<U, E>
      requires Failure?
    {
      Failure(error)
    }

    function Extract(): R
      requires Success?
    {
      value
    }
  }
}

/** The exceptions the adaptation manager can raise, named after their cause. */
module Errors {

  datatype Error =
    /** `analysis_data` is still `{}`: `plan` or `step` ran before `analyze` (a KeyError). */
    | NoAnalysis
    /** `np.argmax` or `np.max` of an empty Q-value vector (a ValueError). */
    | EmptyQValues
    /** `target_f[0][action]` with an action past the end of the vector (an IndexError). */
    | ActionOutOfRange
    /** `np.reshape` of an environment state whose length is not the
        manager's `state_size` (a ValueError). */
    | ShapeMismatch
}
