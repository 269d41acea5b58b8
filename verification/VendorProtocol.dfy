/**
 Workflow object times database, under every schedule of attempts that die, stall, lose their
 acknowledgement or are redelivered, of decide updates and of cancel signals.
 */
module VendorProtocol {
  import opened Base
  import opened RunStates
  import opened VendorTables
  import opened VendorOnboarding

  const MAXIMUM_ATTEMPTS := 3

  /** `attempt` counts finished attempts of the awaited activity, `abandoned` those that may still commit. */
  datatype State = State(wf: Workflow, attempt: nat, abandoned: nat, db: Tables)

  datatype AttemptEnd =
    | DiesBeforeCommit   // rolled back, or never started
    | DiesAfterAudit     // rolled back after the gateway's audit database kept a terminal invocation
    | Stalls             // timed out; its transaction may still commit later
    | LosesAck           // committed, but the worker died before Temporal heard of it
    | Acks

  datatype Step =
    | Attempt(end: AttemptEnd, env: Env)
    | LateCommit(env: Env)
    | Update(decision: Decision)
    | CancelSignal
    | WakeUp

  /** Every tool answers, and the approval request gets identifier 7. */
  const CALM := Env(ToolEnv(NoFault, Usable, false, ""), ToolEnv(NoFault, Usable, false, ""), 7, EmailSent)

  datatype Outcome = Reply(id: Uuid) | Raise(retryable: bool)

  function InitialState(jurisdiction: string): State {
    State(INITIAL, 0, 0, InitialTables(jurisdiction))
  }

  predicate AwaitsActivity(w: Workflow) {
    !Closed(w) && !w.awaiting.DecisionOrCancel?
  }

  function OutcomeOf(failure: Option<Failure>): Outcome {
    if failure.None? then Reply(0) else Raise(failure.value.retryable)
  }

  /** The transaction of the activity that the workflow awaits. */
  function Perform(w: Workflow, t: Tables, env: Env): (Tables, Outcome) {
    match w.awaiting
    case BeginReviewDone => var (rows, failure) := BeginReview(t, env.lookup); (rows, OutcomeOf(failure))
    case AssessRiskDone => var (rows, failure) := AssessRisk(t, env.policy); (rows, OutcomeOf(failure))
    case RequestApprovalDone => var (rows, id) := RequestApproval(t, env.freshId); (rows, Reply(id))
    case CancelReviewDone => (CancelReview(t), Reply(0))
    case RecordDecisionDone =>
      if w.decision.None? then (t, Raise(true))
      else
        var (rows, error) := RecordDecision(t, w.decision.value, env.mail);
        (rows, if error.None? then Reply(0) else Raise(true))
    case _ => (t, Raise(true))
  }

  /** The terminal invocation that survives in the audit database when the attempt itself rolls back. */
  function AuditOnly(w: Workflow, t: Tables, env: Env): Tables {
    match w.awaiting
    case BeginReviewDone =>
      var row := CallTool(t.lookup, env.lookup, "").0;
      if row == Some(NotExecuted) then t.(lookup := row) else t
    case AssessRiskDone =>
      var row := CallTool(t.policy, env.policy, "").0;
      if row == Some(NotExecuted) then t.(policy := row) else t
    case RecordDecisionDone =>
      if w.decision.None? then t
      else
        var (rows, error) := RecordDecision(t, w.decision.value, env.mail);
        if error == Some(EmailUnavailable) then rows else t
    case _ => t
  }

  function AfterFailedAttempt(s: State, db: Tables, abandoned: nat): State {
    if s.attempt + 1 >= MAXIMUM_ATTEMPTS
    then State(s.wf.(awaiting := ActivityFailed), 0, 0, db)
    else State(s.wf, s.attempt + 1, abandoned, db)
  }

  /** How one attempt ends, given the rows its audit record and its transaction would leave. */
  function EndAttempt(s: State, end: AttemptEnd, audited: Tables, rows: Tables, outcome: Outcome): State {
    match end
    case DiesBeforeCommit => AfterFailedAttempt(s, s.db, s.abandoned)
    case DiesAfterAudit => AfterFailedAttempt(s, audited, s.abandoned)
    case Stalls => AfterFailedAttempt(s, s.db, s.abandoned + 1)
    case LosesAck => AfterFailedAttempt(s, rows, s.abandoned)
    case Acks =>
      match outcome
      case Reply(id) => State(Resume(s.wf, id), 0, 0, rows)
      case Raise(true) => AfterFailedAttempt(s, rows, s.abandoned)
      case Raise(false) => State(s.wf.(awaiting := ActivityFailed), 0, 0, rows)
  }

  function AttemptStep(s: State, end: AttemptEnd, env: Env): State {
    var (rows, outcome) := Perform(s.wf, s.db, env);
    EndAttempt(s, end, AuditOnly(s.wf, s.db, env), rows, outcome)
  }

  /** One step; a step that is not enabled changes nothing. */
  function Next(s: State, step: Step): State {
    match step
    case Attempt(end, env) => if AwaitsActivity(s.wf) then AttemptStep(s, end, env) else s
    case LateCommit(env) =>
      if AwaitsActivity(s.wf) && s.abandoned > 0
      then s.(abandoned := s.abandoned - 1, db := Perform(s.wf, s.db, env).0)
      else s
    case Update(d) => s.(wf := Decide(s.wf, d))
    case CancelSignal => s.(wf := Cancel(s.wf))
    case WakeUp => s.(wf := Wake(s.wf))
  }

  function Run(s: State, schedule: seq<Step>): State
    decreases |schedule|
  {
    if schedule == [] then s else Run(Next(s, schedule[0]), schedule[1..])
  }

  // ----- The inductive invariant -----

  predicate NoRequest(t: Tables) {
    && t.requests == [] && t.decisions == [] && t.projections == [] && t.emails == [] && t.mail.None?
    && t.run in {RunStatus.Pending, RunStatus.Running, RunStatus.Failed}
    && t.vendor in {Submitted, UnderReview}
  }

  predicate PendingApproval(t: Tables) {
    && |t.requests| == 1 && t.requests[0].status == Open && t.requests[0].version == 1
    && t.decisions == [] && t.projections == [] && t.emails == [] && t.mail != Some(Usable)
    && t.run == RunStatus.Waiting && t.vendor == UnderReview
  }

  predicate Settled(t: Tables, d: Decision) {
    && t.requests == [Request(d.requestId, StatusOf(d.verdict), 2)]
    && t.decisions == [RowOf(d)]
    && t.projections == (if d.verdict.Approved? then [d.requestId] else [])
    && t.emails == (if d.verdict.Approved? then [APPROVAL_EMAIL] else [])
    && t.run == (if d.verdict.Approved? then RunStatus.Succeeded else RunStatus.Rejected)
    && t.vendor == (if d.verdict.Approved? then Onboarded else TurnedDown)
  }

  predicate CalledOff(t: Tables) {
    && |t.requests| == 1 && t.requests[0].status == Withdrawn
    && t.decisions == [] && t.projections == [] && t.emails == []
    && t.run == RunStatus.Cancelled && t.vendor == UnderReview
  }

  predicate PendingFor(s: State) {
    PendingApproval(s.db) && s.wf.requestId == Some(s.db.requests[0].id)
  }

  predicate DecisionFits(w: Workflow) {
    && (w.decision.Some? ==>
          !w.cancelled && w.requestId == Some(w.decision.value.requestId) && w.decision.value.expectedVersion == 1)
    && (w.requestId.Some? <==> w.version == Some(1))
    && (w.requestId.None? <==> w.version.None?)
  }

  predicate Stage(s: State) {
    match s.wf.awaiting
    case BeginReviewDone => s.wf.phase == Created && s.wf.requestId.None? && NoRequest(s.db)
    case AssessRiskDone =>
      s.wf.phase == AssessingRisk && s.wf.requestId.None? && NoRequest(s.db) && s.db.vendor == UnderReview
    case RequestApprovalDone =>
      && s.wf.phase == WaitingForApproval && s.wf.requestId.None?
      && (PendingApproval(s.db) || (NoRequest(s.db) && s.db.vendor == UnderReview))
    case DecisionOrCancel => s.wf.phase == WaitingForApproval && PendingFor(s)
    case RecordDecisionDone =>
      && s.wf.phase == RecordingDecision && s.wf.decision.Some?
      && (PendingFor(s) || Settled(s.db, s.wf.decision.value))
    case CancelReviewDone => s.wf.phase == WaitingForApproval && s.wf.cancelled && (PendingFor(s) || CalledOff(s.db))
    case Returned =>
      if s.wf.decision.Some? then Settled(s.db, s.wf.decision.value) else CalledOff(s.db)
    case ActivityFailed =>
      || NoRequest(s.db) || PendingApproval(s.db)
      || (s.wf.decision.Some? && Settled(s.db, s.wf.decision.value))
      || (s.wf.cancelled && CalledOff(s.db))
  }

  predicate Inv(s: State) {
    DecisionFits(s.wf) && Stage(s)
  }

  lemma PerformKeepsStage(s: State, env: Env)
    requires Inv(s) && AwaitsActivity(s.wf)
    ensures Inv(s.(db := Perform(s.wf, s.db, env).0))
    ensures Inv(s.(db := AuditOnly(s.wf, s.db, env)))
    ensures Perform(s.wf, s.db, env).1.Reply? ==>
              Inv(State(Resume(s.wf, Perform(s.wf, s.db, env).1.id), 0, 0, Perform(s.wf, s.db, env).0))
  {
  }

  lemma EndAttemptKeepsInv(s: State, end: AttemptEnd, audited: Tables, rows: Tables, outcome: Outcome)
    requires Inv(s) && AwaitsActivity(s.wf)
    requires Inv(s.(db := audited)) && Inv(s.(db := rows))
    requires outcome.Reply? ==> Inv(State(Resume(s.wf, outcome.id), 0, 0, rows))
    ensures Inv(EndAttempt(s, end, audited, rows, outcome))
  {
  }

  lemma NextKeepsInv(s: State, step: Step)
    requires Inv(s)
    ensures Inv(Next(s, step))
  {
    if (step.Attempt? || step.LateCommit?) && AwaitsActivity(s.wf) {
      PerformKeepsStage(s, step.env);
      if step.Attempt? {
        var (rows, outcome) := Perform(s.wf, s.db, step.env);
        EndAttemptKeepsInv(s, step.end, AuditOnly(s.wf, s.db, step.env), rows, outcome);
      }
    }
  }

  lemma {:induction false} RunKeepsInv(s: State, schedule: seq<Step>)
    requires Inv(s)
    ensures Inv(Run(s, schedule))
    decreases |schedule|
  {
    if schedule != [] {
      NextKeepsInv(s, schedule[0]);
      RunKeepsInv(Next(s, schedule[0]), schedule[1..]);
    }
  }

  lemma {:induction false} RunConcat(s: State, first: seq<Step>, second: seq<Step>)
    ensures Run(s, first + second) == Run(Run(s, first), second)
    decreases |first|
  {
    if first == [] {
      assert first + second == second;
    } else {
      assert (first + second)[1..] == first[1..] + second;
      RunConcat(Next(s, first[0]), first[1..], second);
    }
  }

  // ----- What every schedule guarantees -----

  predicate RequestIs(t: Tables, status: ApprovalStatus) {
    t.requests != [] && t.requests[0].status == status
  }

  predicate DecisionIs(t: Tables, status: ApprovalStatus) {
    t.decisions != [] && t.decisions[0].decision == status
  }

  /** Every business effect happens at most once, and all effects of one verdict happen together. */
  predicate ExactlyOnce(t: Tables) {
    && |t.requests| <= 1 && |t.decisions| <= 1 && |t.projections| <= 1 && |t.emails| <= 1
    && (t.decisions != [] ==> t.requests != [] && t.decisions[0].requestId == t.requests[0].id)
    && (t.projections != [] ==> t.requests != [] && t.projections[0] == t.requests[0].id)
    && (DecisionIs(t, Granted) <==> RequestIs(t, Granted))
    && (RequestIs(t, Granted) <==> t.vendor == Onboarded)
    && (t.vendor == Onboarded <==> t.run == RunStatus.Succeeded)
    && (t.run == RunStatus.Succeeded <==> t.projections != [])
    && (t.projections != [] <==> t.emails != [])
    && (DecisionIs(t, Refused) <==> RequestIs(t, Refused))
    && (RequestIs(t, Refused) <==> t.vendor == TurnedDown)
    && (t.vendor == TurnedDown <==> t.run == RunStatus.Rejected)
    && (t.run == RunStatus.Cancelled <==> RequestIs(t, Withdrawn))
    && (t.run == RunStatus.Cancelled ==> t.decisions == [] && t.vendor == UnderReview)
    && (t.decisions != [] ==> DecisionIs(t, Granted) || DecisionIs(t, Refused))
    && (RequestIs(t, Open) ==> t.requests[0].version == 1)
  }

  lemma InvMeansExactlyOnce(s: State)
    requires Inv(s)
    ensures ExactlyOnce(s.db)
  {
  }

  lemma EffectsExactlyOnce(jurisdiction: string, schedule: seq<Step>)
    ensures ExactlyOnce(Run(InitialState(jurisdiction), schedule).db)
  {
    RunKeepsInv(InitialState(jurisdiction), schedule);
    InvMeansExactlyOnce(Run(InitialState(jurisdiction), schedule));
  }

  /** A decided or cancelled run is final: no redelivery, zombie, update or signal changes a row. */
  lemma {:induction false} DecidedRunsAreFrozen(jurisdiction: string, schedule: seq<Step>, more: seq<Step>)
    requires Run(InitialState(jurisdiction), schedule).db.run
             in {RunStatus.Succeeded, RunStatus.Rejected, RunStatus.Cancelled}
    ensures Run(InitialState(jurisdiction), schedule + more).db == Run(InitialState(jurisdiction), schedule).db
  {
    RunKeepsInv(InitialState(jurisdiction), schedule);
    RunConcat(InitialState(jurisdiction), schedule, more);
    FrozenFrom(Run(InitialState(jurisdiction), schedule), more);
  }

  lemma {:induction false} FrozenFrom(s: State, more: seq<Step>)
    requires Inv(s) && s.db.run in {RunStatus.Succeeded, RunStatus.Rejected, RunStatus.Cancelled}
    ensures Run(s, more).db == s.db
    decreases |more|
  {
    if more != [] {
      NextKeepsInv(s, more[0]);
      FrozenStep(s, more[0]);
      FrozenFrom(Next(s, more[0]), more[1..]);
    }
  }

  lemma FrozenStep(s: State, step: Step)
    requires Inv(s) && s.db.run in {RunStatus.Succeeded, RunStatus.Rejected, RunStatus.Cancelled}
    ensures Next(s, step).db == s.db
  {
  }

  // ----- No accepted decision is later refused -----

  lemma {:induction false} DecisionSticks(s: State, schedule: seq<Step>)
    requires Inv(s) && s.wf.decision.Some?
    ensures Run(s, schedule).wf.decision == s.wf.decision
    decreases |schedule|
  {
    if schedule != [] {
      NextKeepsInv(s, schedule[0]);
      DecisionSticks(Next(s, schedule[0]), schedule[1..]);
    }
  }

  /**
   An update that the validator accepts stays the decision, excludes cancellation, and meets
   neither a conflict nor a stale version on any attempt to record it, first or redelivered.
   */
  lemma AcceptedDecisionIsNeverRefused(
    jurisdiction: string, before: seq<Step>, d: Decision, after: seq<Step>, env: EmailEnv)
    requires Accepts(Run(InitialState(jurisdiction), before).wf, d)
    ensures var s := Run(InitialState(jurisdiction), before + [Update(d)] + after);
            && s.wf.decision == Some(d) && !s.wf.cancelled
            && (s.wf.awaiting.RecordDecisionDone? ==>
                  RecordDecision(s.db, d, env).1 in {None, Some(EmailUnavailable)})
            && (s.wf.awaiting.Returned? ==> s.db.decisions == [RowOf(d)])
  {
    var s0 := InitialState(jurisdiction);
    var s1 := Run(s0, before);
    RunKeepsInv(s0, before);
    NextKeepsInv(s1, Update(d));
    RunConcat(s0, before, [Update(d)]);
    assert Run(s1, [Update(d)]) == Run(Next(s1, Update(d)), []);
    RunConcat(s0, before + [Update(d)], after);
    RunKeepsInv(Next(s1, Update(d)), after);
    DecisionSticks(Next(s1, Update(d)), after);
  }
}
