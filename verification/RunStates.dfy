/** The states of a workflow run. */
module RunStates {

  datatype RunStatus = Pending | Running | Waiting | Succeeded | Failed | Cancelled | Rejected

  /** A run has ended exactly when it is neither pending, running nor waiting. */
  predicate Terminal(status: RunStatus): (ended: bool)
    ensures ended <==> !status.Pending? && !status.Running? && !status.Waiting?
  {
    status in {Succeeded, Failed, Cancelled, Rejected}
  }
}
