/** Result shapes shared by the model: an optional value, and the outcome of a
    step that either hands back a value or ends the process with
    `exit(EXIT_FAILURE)` (or an uncaught exception). */
module Outcomes {

  datatype Option<+T> = None | Some(value: T) {
    predicate IsFailure() { None? }

    function PropagateFailure<U>(): Option<U>
      requires None?
    {
      None
    }

    function Extract(): T
      requires Some?
    {
      value
    }

    function GetOr(default: T): T {
      match this
      case Some(v) => v
      case None => default
    }
  }

  /** `Fatal` stands for the program ending with a failure status instead of
      returning to its caller. */
  datatype Checked<+T> = Ok(value: T) | Fatal
}
