/**
 * The repository-validation status both deploy forms show: not checked
 * (`null`), a check in progress, or its result.
 */
module Validation {

  datatype Status = Unchecked | Loading | Success | Failure {
    /** A finished check: 'success' or 'error'. */
    predicate IsResult() {
      this.Success? || this.Failure?
    }
  }

  /** The simulated check's result from one random draw (`Math.random() > 0.5`). */
  function Outcome(passed: bool): (s: Status)
    ensures s.IsResult()
    ensures s.Success? <==> passed
  {
    if passed then Success else Failure
  }
}
