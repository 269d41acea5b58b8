/**
 The vendor-onboarding workflow object: the fields that its coroutine, its decide update and
 its cancel signal share. `awaiting` is the point where the coroutine is suspended.
 */
module VendorOnboarding {
  import opened Base
  import opened VendorTables

  datatype Phase = Created | AssessingRisk | WaitingForApproval | RecordingDecision | Completed | CancelledPhase

  datatype Awaiting =
    | BeginReviewDone | AssessRiskDone | RequestApprovalDone   // the three opening activities
    | DecisionOrCancel                                         // workflow.wait_condition
    | RecordDecisionDone | CancelReviewDone                    // the two closing activities
    | Returned | ActivityFailed                                // the coroutine has ended

  datatype Workflow = Workflow(
    phase: Phase, requestId: Option<Uuid>, version: Option<int>,
    decision: Option<Decision>, cancelled: bool, awaiting: Awaiting)

  const INITIAL := Workflow(Created, None, None, None, false, BeginReviewDone)

  datatype Refusal = NotWaiting | ForeignRequest | StaleVersion | AlreadyCancelled | AlreadyDecided

  predicate Closed(w: Workflow) {
    w.awaiting in {Returned, ActivityFailed}
  }

  /** The update validator: None accepts. */
  function Validate(w: Workflow, d: Decision): Option<Refusal> {
    if w.phase != WaitingForApproval then Some(NotWaiting)
    else if w.requestId != Some(d.requestId) then Some(ForeignRequest)
    else if w.version != Some(d.expectedVersion) then Some(StaleVersion)
    else if w.cancelled then Some(AlreadyCancelled)
    else if w.decision.Some? && w.decision.value != d then Some(AlreadyDecided)
    else None
  }

  predicate Accepts(w: Workflow, d: Decision) {
    !Closed(w) && Validate(w, d).None?
  }

  /** A decide update; Temporal delivers none to a workflow that has ended. */
  function Decide(w: Workflow, d: Decision): Workflow {
    if Accepts(w, d) then w.(decision := Some(d)) else w
  }

  function Cancel(w: Workflow): Workflow {
    if Closed(w) || w.decision.Some? then w else w.(cancelled := true)
  }

  /** The coroutine continues after the activity it awaits has acknowledged. */
  function Resume(w: Workflow, reply: Uuid): Workflow {
    match w.awaiting
    case BeginReviewDone => w.(phase := AssessingRisk, awaiting := AssessRiskDone)
    case AssessRiskDone => w.(phase := WaitingForApproval, awaiting := RequestApprovalDone)
    case RequestApprovalDone => w.(requestId := Some(reply), version := Some(1), awaiting := DecisionOrCancel)
    case CancelReviewDone => w.(phase := CancelledPhase, awaiting := Returned)
    case RecordDecisionDone => w.(phase := Completed, awaiting := Returned)
    case _ => w
  }

  /** The coroutine continues once its wait condition holds: cancellation is looked at first. */
  function Wake(w: Workflow): Workflow {
    if !w.awaiting.DecisionOrCancel? then w
    else if w.cancelled then w.(awaiting := CancelReviewDone)
    else if w.decision.Some? then w.(phase := RecordingDecision, awaiting := RecordDecisionDone)
    else w
  }

  /** The workflow object itself, statement by statement. */
  class VendorOnboardingWorkflow {
    var phase: Phase
    var approvalRequestId: Option<Uuid>
    var approvalVersion: Option<int>
    var decision: Option<Decision>
    var cancelled: bool
    var awaiting: Awaiting

    function Fields(): Workflow
      reads this
    {
      Workflow(phase, approvalRequestId, approvalVersion, decision, cancelled, awaiting)
    }

    constructor ()
      ensures Fields() == INITIAL
    {
      phase, approvalRequestId, approvalVersion, decision := Created, None, None, None;
      cancelled, awaiting := false, BeginReviewDone;
    }

    method ValidateDecision(d: Decision) returns (refused: Option<Refusal>)
      ensures refused == Validate(Fields(), d)
      ensures refused.None? <==>
                && phase == WaitingForApproval && !cancelled
                && approvalRequestId == Some(d.requestId) && approvalVersion == Some(d.expectedVersion)
                && decision in {None, Some(d)}
      ensures refused == Some(NotWaiting) <==> phase != WaitingForApproval
      ensures refused == Some(AlreadyDecided) ==> decision.Some? && decision != Some(d)
    {
      if phase != WaitingForApproval {
        return Some(NotWaiting);
      }
      if approvalRequestId != Some(d.requestId) {
        return Some(ForeignRequest);
      }
      if approvalVersion != Some(d.expectedVersion) {
        return Some(StaleVersion);
      }
      if cancelled {
        return Some(AlreadyCancelled);
      }
      if decision.Some? {
        if decision.value == d {
          return None;
        }
        return Some(AlreadyDecided);
      }
      return None;
    }

    /** One decide update as Temporal delivers it: the validator, then the handler. */
    method HandleUpdate(d: Decision) returns (accepted: bool)
      modifies this
      ensures accepted == Accepts(old(Fields()), d)
      ensures accepted <==>
                && old(awaiting) !in {Returned, ActivityFailed}
                && old(phase) == WaitingForApproval && !old(cancelled)
                && old(approvalRequestId) == Some(d.requestId) && old(approvalVersion) == Some(d.expectedVersion)
                && old(decision) in {None, Some(d)}
      ensures Fields() == if accepted then old(Fields()).(decision := Some(d)) else old(Fields())
      ensures Fields() == Decide(old(Fields()), d)
    {
      if awaiting in {Returned, ActivityFailed} {
        return false;
      }
      var refused := ValidateDecision(d);
      if refused.Some? {
        return false;
      }
      decision := Some(d);
      return true;
    }

    method HandleCancel()
      modifies this
      ensures Fields() == Cancel(old(Fields()))
      ensures cancelled <==>
                old(cancelled) || (old(awaiting) !in {Returned, ActivityFailed} && old(decision) == None)
    {
      if awaiting in {Returned, ActivityFailed} {
        return;
      }
      if decision == None {
        cancelled := true;
      }
    }

    method Continue(reply: Uuid)
      modifies this
      ensures Fields() == Resume(old(Fields()), reply)
    {
      match awaiting {
        case BeginReviewDone =>
          phase := AssessingRisk;
          awaiting := AssessRiskDone;
        case AssessRiskDone =>
          phase := WaitingForApproval;
          awaiting := RequestApprovalDone;
        case RequestApprovalDone =>
          approvalRequestId := Some(reply);
          approvalVersion := Some(1);
          awaiting := DecisionOrCancel;
        case CancelReviewDone =>
          phase := CancelledPhase;
          awaiting := Returned;
        case RecordDecisionDone =>
          phase := Completed;
          awaiting := Returned;
        case _ =>
      }
    }
  }
}
