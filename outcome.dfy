/** The outcome of a solver. */
module Outcome {

  /** Why a fit has no value. Over exact reals the only failures are the
      divisions of the closed forms. */
  datatype SolveError =
    | InsufficientData      // there are no samples to average over
    | SingularDesignMatrix  // the determinant of the system is zero

  datatype Result<T> = Ok(value: T) | Err(error: SolveError)
}
