/** The status of a task row, and the status a finished agent run asks for. */
module TaskStatuses {
  import opened Options
  import opened AgentState
  import opened Harness

  datatype TaskStatus =
    | INIT | PROCESSING | SUCCESS | CANCELLED | CANCEL_REQUESTED | WAITING_APPROVAL | WAITING_RECONCILIATION | FAILED

  predicate Terminal(s: TaskStatus) {
    s == SUCCESS || s == TaskStatus.CANCELLED || s == TaskStatus.FAILED
  }

  predicate Waiting(s: TaskStatus) {
    s == WAITING_APPROVAL || s == WAITING_RECONCILIATION
  }

  /** What a handler may return, and so what a release may write. */
  predicate Returnable(s: TaskStatus) {
    Terminal(s) || Waiting(s)
  }

  function FinalStatus(cancelSeen: bool, r: AgentLoopResult): (s: TaskStatus)
    ensures Returnable(s)
    ensures Waiting(s) <==>
            !cancelSeen && (r.stopReason == Some(APPROVAL_REQUIRED) || r.stopReason == Some(EXECUTION_IN_DOUBT))
    ensures s == TaskStatus.CANCELLED <==> cancelSeen
    ensures s == WAITING_APPROVAL <==> !cancelSeen && r.stopReason == Some(APPROVAL_REQUIRED)
    ensures s == SUCCESS <==>
            !cancelSeen && r.success && r.stopReason != Some(APPROVAL_REQUIRED)
            && r.stopReason != Some(EXECUTION_IN_DOUBT)
  {
    if cancelSeen then TaskStatus.CANCELLED
    else if r.stopReason == Some(APPROVAL_REQUIRED) then WAITING_APPROVAL
    else if r.stopReason == Some(EXECUTION_IN_DOUBT) then WAITING_RECONCILIATION
    else if r.success then SUCCESS
    else TaskStatus.FAILED
  }
}
