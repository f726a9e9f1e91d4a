/** How a message can be settled, and how its handling can end. */
module Outcomes {

  /** The three settlement calls. */
  datatype Verdict = Completed | Abandoned | DeadLettered

  /** How `processMessage()` finds the handling of a message ended. */
  datatype Outcome = Succeeded | Failed | CancelledByClose | Rejected
}
