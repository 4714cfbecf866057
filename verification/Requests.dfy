/** What every demand request carries and answers (crates/velorix-api/src/demand_materialization.rs). */
module Requests {
  // Work units to stage, rows to process and bytes to read, at most.
  datatype Budget = Budget(batchLimit: nat, maxRows: nat, maxBytes: nat)

  predicate Positive(b: Budget) {
    b.batchLimit > 0 && b.maxRows > 0 && b.maxBytes > 0
  }

  // What becomes of a commit: done, refused, or done without an answer.
  datatype Fault = NoFault | Refused | ReplyLost

  // A commit that failed was refused, or done without an answer.
  ghost predicate Unanswered(fault: Fault, refused: bool, done: bool) {
    (fault == Refused && refused) || (fault == ReplyLost && done)
  }

  datatype Outcome = Outcome(complete: bool, units: nat, rows: nat, bytes: nat, remaining: nat)

  ghost predicate KeepsTo(o: Outcome, budget: Budget) {
    o.units <= budget.batchLimit && o.rows <= budget.maxRows && o.bytes <= budget.maxBytes
  }
}
