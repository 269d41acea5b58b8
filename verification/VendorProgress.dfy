/**
 What the vendor protocol gets done: which updates and signals take effect, and that a review that
 meets no trouble is approved, rejected or cancelled as it was asked to be.
 */
module VendorProgress {
  import opened Base
  import opened RunStates
  import opened VendorTables
  import opened VendorOnboarding
  import opened VendorProtocol
  import opened VendorEventLog

  // ----- Updates and signals -----

  /** An update of an open workflow changes or confirms the decision exactly when all its fields allow it. */
  lemma UpdateTakesEffectIff(w: Workflow, d: Decision)
    requires w.awaiting !in {Returned, ActivityFailed}
    ensures var allowed :=
              && w.phase == WaitingForApproval && !w.cancelled
              && w.requestId == Some(d.requestId) && w.version == Some(d.expectedVersion)
              && w.decision in {None, Some(d)};
            && (Accepts(w, d) <==> allowed)
            && Decide(w, d) == if allowed then w.(decision := Some(d)) else w
  {
  }

  /** A signal counts exactly while the workflow is open and undecided. */
  lemma SignalTakesEffectIff(w: Workflow)
    ensures Cancel(w) ==
              if w.awaiting !in {Returned, ActivityFailed} && w.decision == None then w.(cancelled := true) else w
  {
  }

  /** The coroutine leaves its wait for a cancellation first, then for a decision, and for nothing else. */
  lemma WaitEndsIff(w: Workflow)
    requires w.awaiting == DecisionOrCancel
    ensures Wake(w) ==
              if w.cancelled then w.(awaiting := CancelReviewDone)
              else if w.decision != None then w.(phase := RecordingDecision, awaiting := RecordDecisionDone)
              else w
  {
  }

  /** Wherever the coroutine waits, a decision for the stored request at version 1 is taken, whatever its verdict. */
  lemma WaitingWorkflowDecides(jurisdiction: string, schedule: seq<Step>, d: Decision)
    requires var s := Run(InitialState(jurisdiction), schedule);
             && s.wf.awaiting.DecisionOrCancel? && !s.wf.cancelled && s.wf.decision == None
    ensures var s := Run(InitialState(jurisdiction), schedule);
            && |s.db.requests| == 1
            && (d.requestId == s.db.requests[0].id && d.expectedVersion == 1 ==>
                  Next(s, Update(d)).wf == s.wf.(decision := Some(d)))
            && (d.requestId != s.db.requests[0].id || d.expectedVersion != 1 ==> Next(s, Update(d)) == s)
  {
    RunKeepsInv(InitialState(jurisdiction), schedule);
    UpdateTakesEffectIff(Run(InitialState(jurisdiction), schedule).wf, d);
  }

  /** From there one undisturbed attempt settles the run, exactly unless an approval's email cannot be sent. */
  lemma DecisionSettlesIff(jurisdiction: string, schedule: seq<Step>, d: Decision, env: Env)
    requires var s := Run(InitialState(jurisdiction), schedule);
             && s.wf.awaiting.DecisionOrCancel? && !s.wf.cancelled && s.wf.decision == None
             && s.db.requests != [] && d.requestId == s.db.requests[0].id && d.expectedVersion == 1
    ensures var s := Run(InitialState(jurisdiction), schedule);
            var t := Next(Next(Next(s, Update(d)), WakeUp), Attempt(Acks, env));
            (t.wf.awaiting.Returned? && t.wf.phase == Completed && Settled(t.db, d)) <==>
            d.verdict.Rejected? || (s.db.mail == None && env.mail.EmailSent?)
  {
    var s := Run(InitialState(jurisdiction), schedule);
    RunKeepsInv(InitialState(jurisdiction), schedule);
    WaitingWorkflowDecides(jurisdiction, schedule, d);
    var u := Next(Next(s, Update(d)), WakeUp);
    assert u.wf.awaiting.RecordDecisionDone? && u.wf.decision == Some(d) && u.db == s.db;
    RecordOfPending(s.db, d, env.mail);
  }

  /** A signal there, or one attempt after it, calls the run off. */
  lemma SignalCallsOff(jurisdiction: string, schedule: seq<Step>, env: Env)
    requires var s := Run(InitialState(jurisdiction), schedule);
             s.wf.awaiting.DecisionOrCancel? && s.wf.decision == None
    ensures var s := Run(InitialState(jurisdiction), schedule);
            var t := Next(Next(Next(s, CancelSignal), WakeUp), Attempt(Acks, env));
            t.wf.awaiting.Returned? && t.wf.phase == CancelledPhase && CalledOff(t.db)
  {
    var s := Run(InitialState(jurisdiction), schedule);
    RunKeepsInv(InitialState(jurisdiction), schedule);
    var u := Next(Next(s, CancelSignal), WakeUp);
    assert u.wf.awaiting.CancelReviewDone? && u.wf.cancelled && u.db == s.db;
    CancelOfPending(s.db);
  }

  lemma CancelOfPending(t: Tables)
    requires PendingApproval(t)
    ensures CalledOff(CancelReview(t))
  {
  }

  /** Recording a decision for the one open request succeeds exactly when its email, if it needs one, is sent. */
  lemma RecordOfPending(t: Tables, d: Decision, env: EmailEnv)
    requires PendingApproval(t) && d.requestId == t.requests[0].id && d.expectedVersion == 1
    ensures var (rows, error) := RecordDecision(t, d, env);
            && (error == None <==> d.verdict.Rejected? || (t.mail == None && env.EmailSent?))
            && (error == None ==> Settled(rows, d))
            && (error != None ==>
                  && error == Some(EmailUnavailable) && !Settled(rows, d)
                  && rows == if t.mail == None && env.EmailDenied? then t.(mail := Some(NotExecuted)) else t)
  {
  }

  // ----- Calm histories -----

  lemma RunOne(s: State, step: Step, rest: seq<Step>)
    ensures Run(s, [step] + rest) == Run(Next(s, step), rest)
  {
    assert ([step] + rest)[1..] == rest;
  }

  const ACK := Attempt(Acks, CALM)

  const OPENING := [Event(10, ReviewStarted), Event(20, RiskAssessed), Event(25, RiskPolicyContext),
                    Event(30, ApprovalRequested)]

  lemma CalmOpening(jurisdiction: string)
    ensures var s := Run(InitialState(jurisdiction), [ACK, ACK, ACK]);
            && s.wf == Workflow(WaitingForApproval, Some(7), Some(1), None, false, DecisionOrCancel)
            && s.db.run == RunStatus.Waiting && s.db.vendor == UnderReview && s.db.mail == None
            && s.db.requests == [Request(7, Open, 1)]
            && s.db.events == OPENING
            && s.db.audits == [ReviewStart, RiskAssess, RequestCreate]
  {
    var s1 := Next(InitialState(jurisdiction), ACK);
    var s2 := Next(s1, ACK);
    RunOne(InitialState(jurisdiction), ACK, [ACK, ACK]);
    RunOne(s1, ACK, [ACK]);
    RunOne(s2, ACK, []);
    assert s1.db.events == [Event(10, ReviewStarted)] && s1.db.audits == [ReviewStart];
    assert s2.db.events == [Event(10, ReviewStarted), Event(20, RiskAssessed), Event(25, RiskPolicyContext)];
    assert s2.db.audits == [ReviewStart, RiskAssess];
    assert [ACK] + [ACK, ACK] == [ACK, ACK, ACK] && [ACK] + [ACK] == [ACK, ACK] && [ACK] + [] == [ACK];
  }

  /** An undisturbed review ends as its one decision says. */
  lemma CalmReviewSettles(jurisdiction: string, d: Decision)
    requires d.requestId == 7 && d.expectedVersion == 1
    ensures var s := Run(InitialState(jurisdiction), [ACK, ACK, ACK] + [Update(d), WakeUp, ACK]);
            s.wf.awaiting.Returned? && s.wf.phase == Completed && Settled(s.db, d)
  {
    var opening := [ACK, ACK, ACK];
    var s := Run(InitialState(jurisdiction), opening);
    CalmOpening(jurisdiction);
    RunConcat(InitialState(jurisdiction), opening, [Update(d), WakeUp, ACK]);
    RunThreeSteps(s, Update(d), WakeUp, ACK);
    DecisionSettlesIff(jurisdiction, opening, d, CALM);
  }

  lemma RunThreeSteps(s: State, a: Step, b: Step, c: Step)
    ensures Run(s, [a, b, c]) == Next(Next(Next(s, a), b), c)
  {
    RunOne(s, a, [b, c]);
    RunOne(Next(s, a), b, [c]);
    RunOne(Next(Next(s, a), b), c, []);
    assert [a] + [b, c] == [a, b, c] && [b] + [c] == [b, c] && [c] + [] == [c];
  }

  /** An undisturbed review that is signalled instead is called off. */
  lemma CalmCancellation(jurisdiction: string)
    ensures var s := Run(InitialState(jurisdiction), [ACK, ACK, ACK] + [CancelSignal, WakeUp, ACK]);
            s.wf.awaiting.Returned? && s.wf.phase == CancelledPhase && CalledOff(s.db)
  {
    var opening := [ACK, ACK, ACK];
    CalmOpening(jurisdiction);
    RunConcat(InitialState(jurisdiction), opening, [CancelSignal, WakeUp, ACK]);
    RunThreeSteps(Run(InitialState(jurisdiction), opening), CancelSignal, WakeUp, ACK);
    SignalCallsOff(jurisdiction, opening, CALM);
  }

  // ----- Attempts, risk and failures -----

  /** An attempt that is not acknowledged is followed by another until the third, which ends the workflow. */
  lemma AttemptsAreCapped(s: State, end: AttemptEnd, env: Env)
    requires s.wf.awaiting !in {DecisionOrCancel, Returned, ActivityFailed} && end != Acks
    ensures var t := Next(s, Attempt(end, env));
            if s.attempt >= 2 then t.wf == s.wf.(awaiting := ActivityFailed)
            else t.wf == s.wf && t.attempt == s.attempt + 1
  {
  }

  /** How the acknowledgement of a tool-calling activity moves the workflow: on, to a retry, or to its end. */
  predicate MovesOn(s: State, t: State, failure: Option<Failure>, next: Awaiting) {
    match failure
    case None => t.wf.awaiting == next && t.attempt == 0 && t.abandoned == 0
    case Some(f) =>
      if f.retryable && s.attempt < 2 then t.wf == s.wf && t.attempt == s.attempt + 1
      else t.wf == s.wf.(awaiting := ActivityFailed)
  }

  lemma AcknowledgedActivityMovesOn(s: State, env: Env)
    ensures s.wf.awaiting == BeginReviewDone ==>
              var (rows, failure) := BeginReview(s.db, env.lookup);
              var t := Next(s, Attempt(Acks, env));
              t.db == rows && MovesOn(s, t, failure, AssessRiskDone)
    ensures s.wf.awaiting == AssessRiskDone ==>
              var (rows, failure) := AssessRisk(s.db, env.policy);
              var t := Next(s, Attempt(Acks, env));
              t.db == rows && MovesOn(s, t, failure, RequestApprovalDone)
    ensures s.wf.awaiting == RequestApprovalDone ==>
              var (rows, id) := RequestApproval(s.db, env.freshId);
              var t := Next(s, Attempt(Acks, env));
              t.db == rows && MovesOn(s, t, None, DecisionOrCancel) && t.wf.requestId == Some(id)
    ensures s.wf.awaiting == CancelReviewDone ==>
              var t := Next(s, Attempt(Acks, env));
              t.db == CancelReview(s.db) && MovesOn(s, t, None, Returned)
    ensures s.wf.awaiting == RecordDecisionDone && s.wf.decision.Some? ==>
              var (rows, error) := RecordDecision(s.db, s.wf.decision.value, env.mail);
              var t := Next(s, Attempt(Acks, env));
              t.db == rows && MovesOn(s, t, if error.None? then None else Some(Failure("", true)), Returned)
  {
  }

  /** A tool call that is refused on its first execution; a stored row is replayed instead. */
  predicate RefusedNow(row: Option<ToolRow>, env: ToolEnv) {
    row == None && (env.fault.Permanent? || (env.fault.NoFault? && env.first == NotExecuted))
  }

  /** An attempt that dies leaves nothing, or the one tool invocation that the audit database has kept. */
  lemma DeadAttemptLeavesAudit(s: State, env: Env)
    requires AwaitsActivity(s.wf)
    ensures Next(s, Attempt(DiesBeforeCommit, env)).db == s.db && Next(s, Attempt(Stalls, env)).db == s.db
    ensures s.wf.awaiting == BeginReviewDone ==>
              Next(s, Attempt(DiesAfterAudit, env)).db ==
              s.db.(lookup := if RefusedNow(s.db.lookup, env.lookup) then Some(NotExecuted) else s.db.lookup)
    ensures s.wf.awaiting == AssessRiskDone ==>
              Next(s, Attempt(DiesAfterAudit, env)).db ==
              s.db.(policy := if RefusedNow(s.db.policy, env.policy) then Some(NotExecuted) else s.db.policy)
    ensures s.wf.awaiting in {RequestApprovalDone, CancelReviewDone} ==>
              Next(s, Attempt(DiesAfterAudit, env)).db == s.db
  {
  }

  /** While a decision is being recorded, that invocation is the denied email of an approval. */
  lemma DeadRecordLeavesAudit(s: State, d: Decision, env: Env)
    requires s.wf.awaiting == RecordDecisionDone && s.wf.decision == Some(d)
    requires PendingApproval(s.db) && d.requestId == s.db.requests[0].id && d.expectedVersion == 1
    ensures Next(s, Attempt(DiesAfterAudit, env)).db ==
              if d.verdict.Approved? && s.db.mail == None && env.mail.EmailDenied?
              then s.db.(mail := Some(NotExecuted)) else s.db
  {
    RecordOfPending(s.db, d, env.mail);
  }

  /** A stalled attempt that commits late leaves the rows of one that committed in time and was not heard of. */
  lemma StalledAttemptCommitsLate(s: State, stalled: Env, env: Env)
    requires AwaitsActivity(s.wf) && s.attempt < 2
    ensures var late := Next(Next(s, Attempt(Stalls, stalled)), LateCommit(env));
            && late.db == Next(s, Attempt(LosesAck, env)).db == Next(s, Attempt(Acks, env)).db
            && late.wf == s.wf && late.attempt == s.attempt + 1 && late.abandoned == s.abandoned
  {
  }

  /** What the stored or first invocation of the vendor lookup means for the review. */
  lemma LookupDecidesReview(t: Tables, env: ToolEnv)
    requires env.fault.NoFault?
    ensures BeginReview(t, env).0.lookup == if t.lookup == None then Some(env.first) else t.lookup
    ensures BeginReview(t, env).1 ==
              match if t.lookup == None then env.first else t.lookup.value
              case Usable => None
              case Unusable => Some(Failure("vendor_identity_mismatch", false))
              case NotExecuted => Some(Failure(env.category, t.lookup == None && env.firstRetryable))
  {
  }

  lemma PolicySearchDecidesAssessment(t: Tables, env: ToolEnv)
    requires env.fault.NoFault?
    ensures AssessRisk(t, env).0.policy == if t.policy == None then Some(env.first) else t.policy
    ensures AssessRisk(t, env).1 ==
              match if t.policy == None then env.first else t.policy.value
              case Usable => None
              case Unusable => Some(Failure("tool_handler_unavailable", false))
              case NotExecuted => Some(Failure(env.category, t.policy == None && env.firstRetryable))
  {
  }

  predicate RiskIs(t: Tables, jurisdiction: string) {
    && t.jurisdiction == jurisdiction
    && t.risk in {None, Some(if jurisdiction in {"US", "GB", "CA"} then 25 else 65)}
  }

  lemma PerformKeepsRisk(w: Workflow, t: Tables, env: Env, jurisdiction: string)
    requires RiskIs(t, jurisdiction)
    ensures RiskIs(Perform(w, t, env).0, jurisdiction) && RiskIs(AuditOnly(w, t, env), jurisdiction)
  {
  }

  lemma NextKeepsRisk(s: State, step: Step, jurisdiction: string)
    requires RiskIs(s.db, jurisdiction)
    ensures RiskIs(Next(s, step).db, jurisdiction)
  {
    if step.Attempt? || step.LateCommit? {
      PerformKeepsRisk(s.wf, s.db, step.env, jurisdiction);
    }
    if Commits(s, step) {
      CommittedRows(s, step);
    } else if step.Attempt? && AwaitsActivity(s.wf) {
      UncommittedRows(s, step);
    } else {
      assert Next(s, step).db == s.db;
    }
  }

  /** The risk score is never anything but the one of the vendor's jurisdiction, under any schedule. */
  lemma {:induction false} RiskIsByJurisdiction(jurisdiction: string, s: State, schedule: seq<Step>)
    requires RiskIs(s.db, jurisdiction)
    ensures RiskIs(Run(s, schedule).db, jurisdiction)
    decreases |schedule|
  {
    if schedule != [] {
      NextKeepsRisk(s, schedule[0], jurisdiction);
      RiskIsByJurisdiction(jurisdiction, Next(s, schedule[0]), schedule[1..]);
    }
  }

  /** An assessment that succeeds has stored the score. */
  lemma AssessmentStoresRisk(t: Tables, env: ToolEnv)
    ensures AssessRisk(t, env).0.risk == Some(if t.jurisdiction in {"US", "GB", "CA"} then 25 else 65)
  {
  }

  /** A retryable failure leaves an audit row; any other fails the run and says why, once per sequence number. */
  lemma RequiredFailureIsRecorded(t: Tables, tool: Tool, f: Failure)
    ensures var after := RequiredToolFailed(t, tool, f);
            var sequence := if tool == VendorLookup then 15 else 25;
            var category := if tool == PolicySearch then "policy_retrieval_failed"
                            else if f.category == "authorization_denied" then "tool_permission_denied"
                            else f.category;
            if f.retryable then
              after.run == t.run && after.events == t.events && ToolRetry in after.audits
            else
              && after.run == RunStatus.Failed && ToolFailure in after.audits
              && after.events == if exists e :: e in t.events && e.sequence == sequence then t.events
                                 else t.events + [Event(sequence, ReviewFailed(category))]
  {
    if exists e :: e in t.events && e.sequence == (if tool == VendorLookup then 15 else 25) {
      var e :| e in t.events && e.sequence == (if tool == VendorLookup then 15 else 25);
      var i :| 0 <= i < |t.events| && t.events[i] == e;
    }
  }

  /** What answers a decision on a run's one request, before anything is written. */
  lemma DecisionRefusals(t: Tables, r: Request, d: Decision, env: EmailEnv)
    requires t.requests == [r] && |t.decisions| <= 1
    requires t.decisions != [] ==> t.decisions[0].requestId == r.id && r.status != Open
    ensures var (after, error) := RecordDecision(t, d, env);
            && (d.requestId != r.id ==> (after, error) == (t, Some(StateMissing)))
            && (d.requestId == r.id && t.decisions == [] && (r.status != Open || r.version != d.expectedVersion) ==>
                  (after, error) == (t, Some(NotPendingAtVersion)))
            && (d.requestId == r.id && t.decisions != [] ==>
                  var row := t.decisions[0];
                  && after == t
                  && error ==
                     if row.key != d.key then Some(NotPendingAtVersion)
                     else if row.decidedBy == d.decidedBy && row.rationale == d.rationale
                             && row.decision == (if d.verdict.Approved? then Granted else Refused) then None
                     else Some(KeyConflict))
  {
  }

  lemma AuditedOnce(audits: seq<AuditAction>, action: AuditAction)
    requires NoDuplicates(audits)
    ensures NoDuplicates(Audited(audits, action)) && action in Audited(audits, action)
  {
  }

  lemma PerformAudits(w: Workflow, t: Tables, env: Env)
    ensures Perform(w, t, env).0.audits == t.audits
         || exists action :: Perform(w, t, env).0.audits == Audited(t.audits, action)
    ensures AuditOnly(w, t, env).audits == t.audits
  {
    match w.awaiting {
      case BeginReviewDone =>
        assert BeginReview(t, env.lookup).0.audits in
               {Audited(t.audits, ReviewStart), Audited(t.audits, ToolRetry), Audited(t.audits, ToolFailure)};
      case AssessRiskDone =>
        assert AssessRisk(t, env.policy).0.audits in
               {Audited(t.audits, RiskAssess), Audited(t.audits, ToolRetry), Audited(t.audits, ToolFailure)};
      case RequestApprovalDone =>
        assert RequestApproval(t, env.freshId).0.audits == Audited(t.audits, RequestCreate);
      case RecordDecisionDone =>
        if w.decision.Some? {
          assert RecordDecision(t, w.decision.value, env.mail).0.audits in
                 {t.audits, Audited(t.audits, DecisionRecord)};
        }
      case CancelReviewDone =>
        assert CancelReview(t).audits in {t.audits, Audited(t.audits, WorkflowCancel)};
      case _ =>
    }
  }

  lemma PerformKeepsAudits(w: Workflow, t: Tables, env: Env)
    requires NoDuplicates(t.audits)
    ensures NoDuplicates(Perform(w, t, env).0.audits) && NoDuplicates(AuditOnly(w, t, env).audits)
  {
    PerformAudits(w, t, env);
    if Perform(w, t, env).0.audits != t.audits {
      var action :| Perform(w, t, env).0.audits == Audited(t.audits, action);
      AuditedOnce(t.audits, action);
    }
  }

  /** Every action of a run is audited at most once, under any schedule. */
  lemma {:induction false} AuditsAreUnique(s: State, schedule: seq<Step>)
    requires NoDuplicates(s.db.audits)
    ensures NoDuplicates(Run(s, schedule).db.audits)
    decreases |schedule|
  {
    if schedule != [] {
      var step := schedule[0];
      if step.Attempt? || step.LateCommit? {
        PerformKeepsAudits(s.wf, s.db, step.env);
      }
      if Commits(s, step) {
        CommittedRows(s, step);
      } else if step.Attempt? && AwaitsActivity(s.wf) {
        UncommittedRows(s, step);
      } else {
        assert Next(s, step).db == s.db;
      }
      AuditsAreUnique(Next(s, step), schedule[1..]);
    }
  }

  /** A cancellation leaves a settled or cancelled run alone and calls any other one off, with its open request. */
  lemma CancelReviewIsRecorded(t: Tables)
    ensures var after := CancelReview(t);
            if t.run in {RunStatus.Succeeded, RunStatus.Rejected, RunStatus.Cancelled} then after == t
            else
              && after.run == RunStatus.Cancelled && after.vendor == t.vendor && WorkflowCancel in after.audits
              && after.decisions == t.decisions && after.projections == t.projections && after.emails == t.emails
              && |after.requests| == |t.requests|
              && (t.requests != [] ==>
                    after.requests[0] == if t.requests[0].status == Open
                                         then Request(t.requests[0].id, Withdrawn, t.requests[0].version + 1)
                                         else t.requests[0])
              && (forall i :: 0 < i < |t.requests| ==> after.requests[i] == t.requests[i])
  {
  }

  /** The email is never inserted a second time, whatever the invocation row says. */
  lemma EmailsStayUnique(t: Tables, env: EmailEnv)
    requires NoDuplicates(t.emails)
    ensures SendEmail(t, env).Some? ==> NoDuplicates(SendEmail(t, env).value.emails)
  {
  }
}
