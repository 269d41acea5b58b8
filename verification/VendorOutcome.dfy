/**
 What an evaluation reads off a run's rows, and the business-effect clauses that a reviewed
 expectation has to satisfy.
 */
module VendorOutcome {
  import opened Base
  import opened RunStates
  import opened VendorTables

  datatype Approval = Absent | Persisted(status: ApprovalStatus)

  datatype Reading = Reading(
    run: RunStatus, vendor: VendorStatus,
    requestCount: nat, decisionCount: nat, approval: Approval,
    projectionCount: nat, emailCount: nat,
    failureCategory: Option<string>, events: seq<EventKind>)

  /** The category of the last review.failed event. */
  function LastFailure(events: seq<Event>): Option<string> {
    if events == [] then None
    else if events[|events| - 1].kind.ReviewFailed? then Some(events[|events| - 1].kind.category)
    else LastFailure(events[..|events| - 1])
  }

  function Kinds(events: seq<Event>): seq<EventKind> {
    seq(|events|, i requires 0 <= i < |events| => events[i].kind)
  }

  function Read(t: Tables): Reading {
    Reading(t.run, t.vendor, |t.requests|, |t.decisions|,
            if t.requests == [] then Absent else Persisted(t.requests[0].status),
            |t.projections|, |t.emails|, LastFailure(t.events), Kinds(t.events))
  }

  /** The reading as the evaluator collects it, with one pass over the events. */
  method CollectActual(t: Tables) returns (actual: Reading)
    ensures actual == Read(t)
    ensures actual.run == t.run && actual.vendor == t.vendor
    ensures actual.requestCount == |t.requests| && actual.decisionCount == |t.decisions|
    ensures actual.projectionCount == |t.projections| && actual.emailCount == |t.emails|
    ensures actual.approval == if t.requests == [] then Absent else Persisted(t.requests[0].status)
    ensures |actual.events| == |t.events| && forall i :: 0 <= i < |t.events| ==> actual.events[i] == t.events[i].kind
  {
    var failureCategory: Option<string> := None;
    var kinds: seq<EventKind> := [];
    for i := 0 to |t.events|
      invariant failureCategory == LastFailure(t.events[..i])
      invariant kinds == Kinds(t.events[..i])
    {
      assert t.events[..i + 1][..i] == t.events[..i];
      if t.events[i].kind.ReviewFailed? {
        failureCategory := Some(t.events[i].kind.category);
      }
      kinds := kinds + [t.events[i].kind];
    }
    assert t.events[..|t.events|] == t.events;
    var approval := if t.requests == [] then Absent else Persisted(t.requests[0].status);
    actual := Reading(t.run, t.vendor, |t.requests|, |t.decisions|, approval,
                      |t.projections|, |t.emails|, failureCategory, kinds);
  }

  /** Event types compare without their payload. */
  function WithoutPayload(kind: EventKind): EventKind {
    match kind
    case ApprovalDecided(_) => ApprovalDecided(Approved)
    case ReviewFailed(_) => ReviewFailed("")
    case other => other
  }

  predicate SameType(a: EventKind, b: EventKind) {
    match a
    case ApprovalDecided(_) => b.ApprovalDecided?
    case ReviewFailed(_) => b.ReviewFailed?
    case _ => a == b
  }

  lemma PayloadIsIgnored(a: EventKind, b: EventKind)
    ensures WithoutPayload(a) == WithoutPayload(b) <==> SameType(a, b)
  {
  }

  predicate TypesUnique(kinds: seq<EventKind>) {
    forall i, j :: 0 <= i < j < |kinds| ==> WithoutPayload(kinds[i]) != WithoutPayload(kinds[j])
  }

  datatype Violation =
    | Unreportable | CountOutOfRange | EventTypesRepeat
    | AbsentWithRows | RequestMissing | DecisionCountWrong
    | ApprovedWithoutDecision | ApprovedWithoutEffects | EffectsWithoutApproval
    | VendorRejectedAlone | SucceededAlone | RejectedAlone
    | WaitingInconsistent | CancelledVendorMoved | CancelledRequestOpen
    | FailureUnexplained | FailureUnexpected | LastEventWrong

  /** The run states that an expected outcome can declare. */
  predicate Reportable(run: RunStatus) {
    run in {RunStatus.Succeeded, RunStatus.Rejected, RunStatus.Cancelled, RunStatus.Failed, RunStatus.Waiting}
  }

  predicate FinalEventFits(run: RunStatus, kind: EventKind) {
    match run
    case Succeeded => kind.ApprovalDecided?
    case Rejected => kind.ApprovalDecided?
    case Cancelled => kind.ReviewCancelled?
    case Failed => kind.ReviewFailed?
    case Waiting => kind.ApprovalRequested?
    case _ => false
  }

  /** The state clauses of validate_business_effects, in the order that it checks them. */
  function ValidateEffects(o: Reading): Option<Violation> {
    if !Reportable(o.run) then Some(Unreportable)
    else if o.requestCount > 1 || o.decisionCount > 1 || o.projectionCount > 1 || o.emailCount > 1 || o.events == []
    then Some(CountOutOfRange)
    else if !TypesUnique(o.events) then Some(EventTypesRepeat)
    else if o.approval.Absent? && (o.requestCount != 0 || o.decisionCount != 0) then Some(AbsentWithRows)
    else if o.approval.Persisted? && o.requestCount != 1 then Some(RequestMissing)
    else if o.approval.Persisted?
         && o.decisionCount != (if o.approval.status in {Granted, Refused} then 1 else 0)
    then Some(DecisionCountWrong)
    else if o.vendor.Onboarded? && (o.run != RunStatus.Succeeded || o.approval != Persisted(Granted))
    then Some(ApprovedWithoutDecision)
    else if o.vendor.Onboarded? && (o.projectionCount != 1 || o.emailCount != 1) then Some(ApprovedWithoutEffects)
    else if !o.vendor.Onboarded? && (o.projectionCount != 0 || o.emailCount != 0) then Some(EffectsWithoutApproval)
    else if o.vendor.TurnedDown? && (o.run != RunStatus.Rejected || o.approval != Persisted(Refused))
    then Some(VendorRejectedAlone)
    else if o.run == RunStatus.Succeeded && !o.vendor.Onboarded? then Some(SucceededAlone)
    else if o.run == RunStatus.Rejected && !o.vendor.TurnedDown? then Some(RejectedAlone)
    else if o.run == RunStatus.Waiting && (!o.vendor.UnderReview? || o.approval != Persisted(Open))
    then Some(WaitingInconsistent)
    else if o.run == RunStatus.Cancelled && !o.vendor.UnderReview? then Some(CancelledVendorMoved)
    else if o.run == RunStatus.Cancelled && o.approval != Persisted(Withdrawn) then Some(CancelledRequestOpen)
    else if o.run == RunStatus.Failed && o.failureCategory.None? then Some(FailureUnexplained)
    else if o.run != RunStatus.Failed && o.failureCategory.Some? then Some(FailureUnexpected)
    else if !FinalEventFits(o.run, o.events[|o.events| - 1]) then Some(LastEventWrong)
    else None
  }

  /** The category that is read is that of the last failure, at position k, or there is none. */
  lemma {:induction false} LastFailureIsLast(events: seq<Event>) returns (k: int)
    ensures -1 <= k < |events|
    ensures forall j :: k < j < |events| ==> !events[j].kind.ReviewFailed?
    ensures if k < 0 then LastFailure(events) == None
            else LastFailure(events).Some? && events[k].kind == ReviewFailed(LastFailure(events).value)
    decreases |events|
  {
    if events == [] {
      k := -1;
    } else if events[|events| - 1].kind.ReviewFailed? {
      k := |events| - 1;
    } else {
      k := LastFailureIsLast(events[..|events| - 1]);
    }
  }

  /** What a reading must say for each run status: vendor, approval, failure and last event. */
  predicate FitsStatus(o: Reading)
    requires o.events != []
  {
    var last := o.events[|o.events| - 1];
    match o.run
    case Succeeded => o.vendor == Onboarded && o.approval == Persisted(Granted) && last.ApprovalDecided?
    case Rejected => o.vendor == TurnedDown && o.approval == Persisted(Refused) && last.ApprovalDecided?
    case Waiting => o.vendor == UnderReview && o.approval == Persisted(Open) && last.ApprovalRequested?
    case Cancelled => o.vendor == UnderReview && o.approval == Persisted(Withdrawn) && last.ReviewCancelled?
    case Failed => o.vendor !in {Onboarded, TurnedDown} && last.ReviewFailed?
    case Pending => false
    case Running => false
  }

  /** The validator accepts exactly the readings whose rows, counts and events tell one story. */
  lemma ValidatorAcceptsIff(o: Reading)
    ensures ValidateEffects(o) == None <==>
            && o.events != [] && FitsStatus(o)
            && (forall i, j :: 0 <= i < j < |o.events| ==> !SameType(o.events[i], o.events[j]))
            && o.requestCount == (if o.approval.Absent? then 0 else 1)
            && o.decisionCount == (if o.approval in {Persisted(Granted), Persisted(Refused)} then 1 else 0)
            && o.projectionCount == (if o.vendor == Onboarded then 1 else 0)
            && o.emailCount == (if o.vendor == Onboarded then 1 else 0)
            && (o.failureCategory.Some? <==> o.run == RunStatus.Failed)
  {
    forall i, j | 0 <= i < j < |o.events|
      ensures WithoutPayload(o.events[i]) == WithoutPayload(o.events[j]) <==> SameType(o.events[i], o.events[j])
    {
      PayloadIsIgnored(o.events[i], o.events[j]);
    }
  }

  lemma {:induction false} NoFailure(events: seq<Event>)
    requires forall i :: 0 <= i < |events| ==> !events[i].kind.ReviewFailed?
    ensures LastFailure(events).None?
    decreases |events|
  {
    if events != [] {
      NoFailure(events[..|events| - 1]);
    }
  }
}
