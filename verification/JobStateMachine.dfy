// Models apps/worker/src/state/job-state-machine.ts.
module JobStateMachine {
  import opened Tables

  function Successors(from: JobStatus): set<JobStatus> {
    match from
    case Scheduled => {Cancelled}
    case Queued => {Claimed, Cancelled}
    case Claimed => {Running}
    case Running => {Completed, Failed}
    case Completed => {}
    case Failed => {}
    case Retrying => {}
    case Cancelled => {}
  }

  // assertTransition returns normally.
  predicate Permits(from: JobStatus, to: JobStatus) {
    to in Successors(from)
  }
}
