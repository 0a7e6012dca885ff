/** Results of operations that can end in the exception the source lets escape. */
module Outcomes {

  /** The only exception the modelled code can raise: dereferencing a missing data source. */
  datatype Exception = NullReferenceException

  /** Outcome of an operation that returns nothing. */
  datatype Outcome = Completed | Threw(exception: Exception)

  /** Outcome of an operation that returns a value. */
  datatype Result<+T> = Ok(value: T) | Failed(exception: Exception) {
    /** Forgets the returned value. */
    function ToOutcome(): Outcome {
      match this
      case Ok(_) => Completed
      case Failed(e) => Threw(e)
    }
  }

  datatype Option<+T> = None | Some(value: T)
}
