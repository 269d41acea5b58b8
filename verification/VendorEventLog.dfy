/** The event log that the vendor protocol writes, and the run status that it determines. */
module VendorEventLog {
  import opened Base
  import opened RunStates
  import opened VendorTables
  import opened VendorOnboarding
  import opened VendorProtocol

  predicate Increasing(events: seq<Event>) {
    forall i, j :: 0 <= i < j < |events| ==> events[i].sequence < events[j].sequence
  }

  predicate IsFailure(e: Event, sequence: int) {
    e.sequence == sequence && e.kind.ReviewFailed?
  }

  /** One event opens a review; a permanent fault on a redelivered begin_review adds a second. */
  function OpeningLength(events: seq<Event>): nat {
    if |events| >= 2 && events[1].sequence == 15 then 2 else 1
  }

  predicate Opened(events: seq<Event>) {
    var n := OpeningLength(events);
    && |events| >= n
    && events[0] == Event(10, ReviewStarted)
    && (n == 2 ==> IsFailure(events[1], 15))
  }

  predicate Assessed(events: seq<Event>) {
    var n := OpeningLength(events);
    && Opened(events) && |events| >= n + 2
    && events[n] == Event(20, RiskAssessed) && events[n + 1] == Event(25, RiskPolicyContext)
  }

  predicate Requested(events: seq<Event>) {
    var n := OpeningLength(events);
    Assessed(events) && |events| >= n + 3 && events[n + 2] == Event(30, ApprovalRequested)
  }

  /** The length of the log after the opening events. */
  function Tail(events: seq<Event>): int {
    |events| - OpeningLength(events)
  }

  predicate ClosedBy(events: seq<Event>, last: Event) {
    Requested(events) && Tail(events) == 4 && events[|events| - 1] == last
  }

  predicate OpeningFailed(events: seq<Event>) {
    |events| == 1 && IsFailure(events[0], 15)
  }

  predicate AssessmentFailed(events: seq<Event>) {
    Opened(events) && Tail(events) == 1 && IsFailure(events[|events| - 1], 25)
  }

  predicate Unusable(row: Option<ToolRow>) {
    row.Some? && row != Some(Usable)
  }

  // The log that each stage of the workflow can have reached, with every kind of fault allowed.

  predicate BeginLog(t: Tables) {
    && t.policy.None?
    && (|| (t.events == [] && t.lookup != Some(Usable))
        || (OpeningFailed(t.events) && Unusable(t.lookup))
        || (Opened(t.events) && Tail(t.events) == 0 && t.lookup == Some(Usable)))
  }

  predicate AssessLog(t: Tables) {
    || (Opened(t.events) && Tail(t.events) == 0 && t.policy != Some(Usable))
    || (AssessmentFailed(t.events) && Unusable(t.policy))
    || (AssessedLog(t) && t.policy == Some(Usable))
  }

  predicate AssessedLog(t: Tables) {
    Assessed(t.events) && Tail(t.events) == 2
  }

  predicate PendingLog(t: Tables) {
    Requested(t.events) && Tail(t.events) == 3
  }

  predicate RecordLog(t: Tables, d: Decision) {
    if t.decisions == [] then PendingLog(t) else ClosedBy(t.events, Event(40, ApprovalDecided(d.verdict)))
  }

  predicate CancelLog(t: Tables) {
    if t.run == RunStatus.Waiting then PendingLog(t) else ClosedBy(t.events, Event(50, ReviewCancelled))
  }

  predicate LogInv(s: State) {
    match s.wf.awaiting
    case BeginReviewDone => BeginLog(s.db)
    case AssessRiskDone => AssessLog(s.db)
    case RequestApprovalDone => if s.db.requests == [] then AssessedLog(s.db) else PendingLog(s.db)
    case DecisionOrCancel => PendingLog(s.db)
    case RecordDecisionDone => s.wf.decision.Some? && RecordLog(s.db, s.wf.decision.value)
    case CancelReviewDone => CancelLog(s.db)
    case _ => Increasing(s.db.events)
  }

  lemma LogInvMeansIncreasing(s: State)
    requires LogInv(s)
    ensures Increasing(s.db.events)
  {
  }

  lemma BeginReviewKeepsLog(t: Tables, env: ToolEnv)
    requires BeginLog(t)
    ensures var (rows, failure) := BeginReview(t, env);
            BeginLog(rows) && (failure.None? ==> AssessLog(rows))
  {
  }

  lemma AssessmentEvents(events: seq<Event>, category: string)
    requires Opened(events) && Tail(events) == 0
    ensures var assessed := Append(Append(events, 20, RiskAssessed), 25, RiskPolicyContext);
            Assessed(assessed) && Tail(assessed) == 2
    ensures AssessmentFailed(Append(events, 25, ReviewFailed(category)))
  {
  }

  lemma AssessRiskKeepsLog(t: Tables, env: ToolEnv)
    requires AssessLog(t)
    ensures var (rows, failure) := AssessRisk(t, env);
            AssessLog(rows) && (failure.None? ==> AssessedLog(rows))
  {
    var failure := CallTool(t.policy, env, "tool_handler_unavailable").1;
    if Opened(t.events) && Tail(t.events) == 0 {
      AssessmentEvents(t.events, if failure.Some? then FailureCategory(PolicySearch, failure.value) else "");
    }
  }

  lemma RequestApprovalKeepsLog(t: Tables, freshId: Uuid)
    requires if t.requests == [] then AssessedLog(t) else PendingLog(t)
    ensures PendingLog(RequestApproval(t, freshId).0)
  {
  }

  lemma ClosingEvent(events: seq<Event>, sequence: int, kind: EventKind)
    requires Requested(events) && Tail(events) == 3 && sequence > 30
    ensures ClosedBy(Append(events, sequence, kind), Event(sequence, kind))
    ensures !HasSequence(events, sequence)
  {
  }

  /** Recording a decision either leaves the log and the decision table, or closes both. */
  lemma RecordDecisionCloses(t: Tables, d: Decision, env: EmailEnv)
    requires PendingApproval(t) || Settled(t, d)
    ensures var rows := RecordDecision(t, d, env).0;
            || (rows.events == t.events && rows.decisions == t.decisions && rows.run == t.run)
            || (&& t.decisions == [] && rows.decisions == [RowOf(d)]
                && rows.events == Append(t.events, 40, ApprovalDecided(d.verdict))
                && rows.run == StatusAfter(ApprovalDecided(d.verdict)))
  {
  }

  lemma RecordDecisionKeepsLog(t: Tables, rows: Tables, d: Decision)
    requires RecordLog(t, d)
    requires || (rows.events == t.events && rows.decisions == t.decisions)
             || (&& t.decisions == [] && rows.decisions == [RowOf(d)]
                 && rows.events == Append(t.events, 40, ApprovalDecided(d.verdict)))
    ensures RecordLog(rows, d)
  {
    if t.decisions == [] {
      ClosingEvent(t.events, 40, ApprovalDecided(d.verdict));
    }
  }

  lemma CancelReviewKeepsLog(t: Tables)
    requires t.run in {RunStatus.Waiting, RunStatus.Cancelled}
    requires CancelLog(t)
    ensures CancelLog(CancelReview(t))
  {
  }

  lemma PerformKeepsLog(s: State, env: Env)
    requires Inv(s) && LogInv(s) && AwaitsActivity(s.wf)
    ensures LogInv(s.(db := Perform(s.wf, s.db, env).0))
    ensures Perform(s.wf, s.db, env).1.Reply? ==>
              LogInv(State(Resume(s.wf, Perform(s.wf, s.db, env).1.id), 0, 0, Perform(s.wf, s.db, env).0))
  {
    match s.wf.awaiting {
      case BeginReviewDone => BeginReviewKeepsLog(s.db, env.lookup);
      case AssessRiskDone => AssessRiskKeepsLog(s.db, env.policy);
      case RequestApprovalDone => RequestApprovalKeepsLog(s.db, env.freshId);
      case RecordDecisionDone =>
        var d := s.wf.decision.value;
        RecordDecisionCloses(s.db, d, env.mail);
        RecordDecisionKeepsLog(s.db, RecordDecision(s.db, d, env.mail).0, d);
      case CancelReviewDone => CancelReviewKeepsLog(s.db);
    }
    LogInvMeansIncreasing(s.(db := Perform(s.wf, s.db, env).0));
  }

  lemma AuditOnlyKeepsLog(s: State, env: Env)
    requires Inv(s) && LogInv(s) && AwaitsActivity(s.wf)
    ensures LogInv(s.(db := AuditOnly(s.wf, s.db, env)))
    ensures AuditOnly(s.wf, s.db, env).run == s.db.run && AuditOnly(s.wf, s.db, env).events == s.db.events
  {
  }

  lemma FailedAttemptKeepsLog(s: State, db: Tables, abandoned: nat)
    requires LogInv(s.(db := db))
    ensures LogInv(AfterFailedAttempt(s, db, abandoned))
    ensures LogInv(s.(wf := s.wf.(awaiting := ActivityFailed), db := db))
  {
    LogInvMeansIncreasing(s.(db := db));
  }

  lemma EndAttemptKeepsLog(s: State, end: AttemptEnd, audited: Tables, rows: Tables, outcome: Outcome)
    requires LogInv(s) && LogInv(s.(db := audited)) && LogInv(s.(db := rows))
    requires outcome.Reply? ==> LogInv(State(Resume(s.wf, outcome.id), 0, 0, rows))
    ensures LogInv(EndAttempt(s, end, audited, rows, outcome))
  {
    assert s == s.(db := s.db);
    FailedAttemptKeepsLog(s, s.db, s.abandoned);
    FailedAttemptKeepsLog(s, s.db, s.abandoned + 1);
    FailedAttemptKeepsLog(s, audited, s.abandoned);
    FailedAttemptKeepsLog(s, rows, s.abandoned);
  }

  lemma NextKeepsLog(s: State, step: Step)
    requires Inv(s) && LogInv(s)
    ensures LogInv(Next(s, step))
  {
    if (step.Attempt? || step.LateCommit?) && AwaitsActivity(s.wf) {
      var (rows, outcome) := Perform(s.wf, s.db, step.env);
      PerformKeepsLog(s, step.env);
      if step.Attempt? {
        AuditOnlyKeepsLog(s, step.env);
        EndAttemptKeepsLog(s, step.end, AuditOnly(s.wf, s.db, step.env), rows, outcome);
      }
    }
  }

  lemma {:induction false} RunKeepsLog(s: State, schedule: seq<Step>)
    requires Inv(s) && LogInv(s)
    ensures LogInv(Run(s, schedule))
    decreases |schedule|
  {
    if schedule != [] {
      NextKeepsInv(s, schedule[0]);
      NextKeepsLog(s, schedule[0]);
      RunKeepsLog(Next(s, schedule[0]), schedule[1..]);
    }
  }

  /** Events commit in strictly increasing order, so each at most once, under every schedule and fault. */
  lemma EventsCommitInOrder(jurisdiction: string, schedule: seq<Step>)
    ensures Increasing(Run(InitialState(jurisdiction), schedule).db.events)
  {
    RunKeepsLog(InitialState(jurisdiction), schedule);
    LogInvMeansIncreasing(Run(InitialState(jurisdiction), schedule));
  }

  // ----- The log determines the run status, exactly while no permanent fault hits a tool that had succeeded -----

  function StatusAfter(kind: EventKind): RunStatus {
    match kind
    case ReviewStarted => RunStatus.Running
    case RiskAssessed => RunStatus.Running
    case RiskPolicyContext => RunStatus.Running
    case ApprovalRequested => RunStatus.Waiting
    case ApprovalDecided(Approved) => RunStatus.Succeeded
    case ApprovalDecided(Rejected) => RunStatus.Rejected
    case ReviewCancelled => RunStatus.Cancelled
    case ReviewFailed(_) => RunStatus.Failed
  }

  /** A prefix of 10, 20, 25, 30 that 40 or 50 may close, or 15 alone, or 10 and a failed 25. */
  predicate RegularShape(events: seq<Event>) {
    || events == []
    || OpeningFailed(events)
    || (&& OpeningLength(events) == 1
        && (|| (Opened(events) && Tail(events) == 0)
            || AssessmentFailed(events)
            || (Assessed(events) && Tail(events) == 2)
            || (Requested(events) && Tail(events) == 3)
            || ClosedBy(events, Event(40, ApprovalDecided(Approved)))
            || ClosedBy(events, Event(40, ApprovalDecided(Verdict.Rejected)))
            || ClosedBy(events, Event(50, ReviewCancelled))))
  }

  predicate LogDeterminesStatus(t: Tables) {
    && RegularShape(t.events)
    && if t.events == [] then t.run in {RunStatus.Pending, RunStatus.Running}
       else t.run == StatusAfter(t.events[|t.events| - 1].kind)
  }

  predicate Commits(s: State, step: Step) {
    && AwaitsActivity(s.wf)
    && ((step.Attempt? && step.end in {LosesAck, Acks}) || (step.LateCommit? && s.abandoned > 0))
  }

  /** The step commits a permanently faulted attempt although the same tool call has already succeeded. */
  predicate FaultAfterSuccess(s: State, step: Step) {
    && Commits(s, step)
    && (|| (s.wf.awaiting.BeginReviewDone? && step.env.lookup.fault.Permanent? && s.db.lookup == Some(Usable))
        || (s.wf.awaiting.AssessRiskDone? && step.env.policy.fault.Permanent? && s.db.policy == Some(Usable)))
  }

  lemma BeginReviewStatusIff(t: Tables, env: ToolEnv)
    requires BeginLog(t) && LogDeterminesStatus(t)
    ensures LogDeterminesStatus(BeginReview(t, env).0) <==> !(env.fault.Permanent? && t.lookup == Some(Usable))
  {
  }

  lemma AssessRiskStatusIff(t: Tables, env: ToolEnv)
    requires AssessLog(t) && LogDeterminesStatus(t)
    ensures LogDeterminesStatus(AssessRisk(t, env).0) <==> !(env.fault.Permanent? && t.policy == Some(Usable))
  {
  }

  lemma RequestApprovalKeepsStatus(t: Tables, freshId: Uuid)
    requires if t.requests == [] then AssessedLog(t) else PendingLog(t)
    requires LogDeterminesStatus(t)
    ensures LogDeterminesStatus(RequestApproval(t, freshId).0)
  {
  }

  lemma RecordDecisionKeepsStatus(t: Tables, rows: Tables, d: Decision)
    requires RecordLog(t, d) && LogDeterminesStatus(t)
    requires || (rows.events == t.events && rows.decisions == t.decisions && rows.run == t.run)
             || (&& t.decisions == []
                 && rows.events == Append(t.events, 40, ApprovalDecided(d.verdict))
                 && rows.run == StatusAfter(ApprovalDecided(d.verdict)))
    ensures LogDeterminesStatus(rows)
  {
    if t.decisions == [] {
      ClosingEvent(t.events, 40, ApprovalDecided(d.verdict));
    }
  }

  lemma CancelReviewKeepsStatus(t: Tables)
    requires t.run in {RunStatus.Waiting, RunStatus.Cancelled}
    requires CancelLog(t) && LogDeterminesStatus(t)
    ensures LogDeterminesStatus(CancelReview(t))
  {
  }

  lemma PerformKeepsStatusIff(s: State, env: Env)
    requires Inv(s) && LogInv(s) && LogDeterminesStatus(s.db) && AwaitsActivity(s.wf)
    ensures LogDeterminesStatus(Perform(s.wf, s.db, env).0) <==> !FaultAfterSuccess(s, Attempt(Acks, env))
  {
    match s.wf.awaiting {
      case BeginReviewDone => BeginReviewStatusIff(s.db, env.lookup);
      case AssessRiskDone => AssessRiskStatusIff(s.db, env.policy);
      case RequestApprovalDone => RequestApprovalKeepsStatus(s.db, env.freshId);
      case RecordDecisionDone =>
        var d := s.wf.decision.value;
        RecordDecisionCloses(s.db, d, env.mail);
        RecordDecisionKeepsStatus(s.db, RecordDecision(s.db, d, env.mail).0, d);
      case CancelReviewDone => CancelReviewKeepsStatus(s.db);
    }
  }

  /** A step takes a run whose log determines its status to another such run, unless it faults after a success. */
  lemma StepKeepsStatusIff(s: State, step: Step)
    requires Inv(s) && LogInv(s) && LogDeterminesStatus(s.db)
    ensures LogDeterminesStatus(Next(s, step).db) <==> !FaultAfterSuccess(s, step)
  {
    if Commits(s, step) {
      CommittedRows(s, step);
      PerformKeepsStatusIff(s, step.env);
    } else if step.Attempt? && AwaitsActivity(s.wf) {
      AuditOnlyKeepsLog(s, step.env);
      UncommittedRows(s, step);
    }
  }

  lemma CommittedRows(s: State, step: Step)
    requires Commits(s, step)
    ensures Next(s, step).db == Perform(s.wf, s.db, step.env).0
  {
    if step.Attempt? {
      var (rows, outcome) := Perform(s.wf, s.db, step.env);
      EndedRows(s, step.end, AuditOnly(s.wf, s.db, step.env), rows, outcome);
    }
  }

  lemma UncommittedRows(s: State, step: Step)
    requires step.Attempt? && AwaitsActivity(s.wf) && !Commits(s, step)
    ensures Next(s, step).db in {s.db, AuditOnly(s.wf, s.db, step.env)}
  {
    var (rows, outcome) := Perform(s.wf, s.db, step.env);
    EndedRows(s, step.end, AuditOnly(s.wf, s.db, step.env), rows, outcome);
  }

  lemma EndedRows(s: State, end: AttemptEnd, audited: Tables, rows: Tables, outcome: Outcome)
    ensures end in {LosesAck, Acks} ==> EndAttempt(s, end, audited, rows, outcome).db == rows
    ensures end !in {LosesAck, Acks} ==> EndAttempt(s, end, audited, rows, outcome).db in {s.db, audited}
  {
  }

  /** No step of the schedule faults a tool call that has already succeeded. */
  predicate FaultsPrecedeSuccess(s: State, schedule: seq<Step>)
    decreases |schedule|
  {
    schedule == [] ||
    (!FaultAfterSuccess(s, schedule[0]) && FaultsPrecedeSuccess(Next(s, schedule[0]), schedule[1..]))
  }

  /** At every point of the run its log determines its status. */
  predicate LogAlwaysDetermines(s: State, schedule: seq<Step>)
    decreases |schedule|
  {
    && LogDeterminesStatus(s.db)
    && (schedule == [] || LogAlwaysDetermines(Next(s, schedule[0]), schedule[1..]))
  }

  lemma {:induction false} RunKeepsStatus(s: State, schedule: seq<Step>)
    requires Inv(s) && LogInv(s) && LogDeterminesStatus(s.db)
    ensures LogAlwaysDetermines(s, schedule) <==> FaultsPrecedeSuccess(s, schedule)
    ensures FaultsPrecedeSuccess(s, schedule) ==> LogDeterminesStatus(Run(s, schedule).db)
    decreases |schedule|
  {
    if schedule != [] {
      NextKeepsInv(s, schedule[0]);
      NextKeepsLog(s, schedule[0]);
      StepKeepsStatusIff(s, schedule[0]);
      if LogDeterminesStatus(Next(s, schedule[0]).db) {
        RunKeepsStatus(Next(s, schedule[0]), schedule[1..]);
      }
    }
  }

  /** The log determines the status all along the run exactly when no step faults a tool after its success. */
  lemma LogAlwaysDeterminesIff(jurisdiction: string, schedule: seq<Step>)
    ensures LogAlwaysDetermines(InitialState(jurisdiction), schedule)
       <==> FaultsPrecedeSuccess(InitialState(jurisdiction), schedule)
  {
    RunKeepsStatus(InitialState(jurisdiction), schedule);
  }

  predicate NoPermanentFault(schedule: seq<Step>) {
    forall i :: 0 <= i < |schedule| && (schedule[i].Attempt? || schedule[i].LateCommit?) ==>
      !schedule[i].env.lookup.fault.Permanent? && !schedule[i].env.policy.fault.Permanent?
  }

  lemma {:induction false} WithoutPermanentFaults(s: State, schedule: seq<Step>)
    requires NoPermanentFault(schedule)
    ensures FaultsPrecedeSuccess(s, schedule)
    decreases |schedule|
  {
    if schedule != [] {
      WithoutPermanentFaults(Next(s, schedule[0]), schedule[1..]);
    }
  }

  lemma LogAlwaysDeterminesStatus(jurisdiction: string, schedule: seq<Step>)
    requires FaultsPrecedeSuccess(InitialState(jurisdiction), schedule) || NoPermanentFault(schedule)
    ensures LogDeterminesStatus(Run(InitialState(jurisdiction), schedule).db)
  {
    if NoPermanentFault(schedule) {
      WithoutPermanentFaults(InitialState(jurisdiction), schedule);
    }
    RunKeepsStatus(InitialState(jurisdiction), schedule);
  }
}
