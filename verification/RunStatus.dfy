/** Run statuses and the transition table every status change has to obey. */
module RunStatus {
  datatype Status =
    | Pending
    | Running
    | InvestigationComplete
    | WaitingApproval
    | Resolved
    | InsufficientEvidence
    | NeedsHuman
    | Failed

  const TERMINAL: set<Status> :=
    {InvestigationComplete, Resolved, InsufficientEvidence, NeedsHuman, Failed}

  function Transitions(s: Status): set<Status> {
    match s
    case Pending => {Running, Failed}
    case Running => {Running, Pending, WaitingApproval} + TERMINAL
    case WaitingApproval => {Pending, Running, NeedsHuman}
    case _ => {s}
  }

  datatype Decision = Approve | Reject
}
