/**
 The vendor-onboarding activities as the program runs them: statement by statement on the
 run's rows, inside one transaction each. Every method is proved against the transaction of
 the same name in VendorTables; a transaction that raises leaves the rows it found.
 */
module VendorActivities {
  import opened Base
  import opened RunStates
  import opened VendorTables

  class VendorDatabase {
    var run: RunStatus
    var vendor: VendorStatus
    const jurisdiction: string
    var risk: Option<int>
    var requests: seq<Request>
    var decisions: seq<DecisionRow>
    var projections: seq<Uuid>
    var emails: seq<string>
    var events: seq<Event>
    var audits: seq<AuditAction>
    var lookup: Option<ToolRow>
    var policy: Option<ToolRow>
    var mail: Option<ToolRow>

    function Rows(): Tables
      reads this
    {
      Tables(run, vendor, jurisdiction, risk, requests, decisions, projections, emails, events, audits,
             lookup, policy, mail)
    }

    constructor (jurisdiction: string)
      ensures Rows() == InitialTables(jurisdiction)
    {
      this.run, this.vendor, this.jurisdiction, this.risk := RunStatus.Pending, Submitted, jurisdiction, None;
      this.requests, this.decisions, this.projections, this.emails := [], [], [], [];
      this.events, this.audits := [], [];
      this.lookup, this.policy, this.mail := None, None, None;
    }

    method AppendEvent(sequence: int, kind: EventKind)
      modifies `events
      ensures events == Append(old(events), sequence, kind)
    {
      for i := 0 to |events|
        invariant forall j :: 0 <= j < i ==> events[j].sequence != sequence
        invariant events == old(events)
      {
        if events[i].sequence == sequence {
          return;
        }
      }
      events := events + [Event(sequence, kind)];
    }

    method Audit(action: AuditAction)
      modifies `audits
      ensures audits == Audited(old(audits), action)
    {
      if action !in audits {
        audits := audits + [action];
      }
    }

    method RequiredToolFailed(tool: Tool, failure: Failure)
      modifies `run, `events, `audits
      ensures Rows() == VendorTables.RequiredToolFailed(old(Rows()), tool, failure)
    {
      var category := failure.category;
      if tool.PolicySearch? && !failure.retryable {
        category := "policy_retrieval_failed";
      } else if failure.category == "authorization_denied" {
        category := "tool_permission_denied";
      }
      if failure.retryable {
        Audit(ToolRetry);
        return;
      }
      run := RunStatus.Failed;
      Audit(ToolFailure);
      AppendEvent(if tool.VendorLookup? then 15 else 25, ReviewFailed(category));
    }

    method BeginReview(env: ToolEnv) returns (failure: Option<Failure>)
      modifies `run, `vendor, `lookup, `events, `audits
      ensures (Rows(), failure) == VendorTables.BeginReview(old(Rows()), env)
    {
      if run == RunStatus.Pending {
        run := RunStatus.Running;
      }
      if vendor == Submitted {
        vendor := UnderReview;
      }
      var (row, raised) := CallTool(lookup, env, "vendor_identity_mismatch");
      lookup, failure := row, raised;
      if failure.Some? {
        RequiredToolFailed(VendorLookup, failure.value);
        return;
      }
      AppendEvent(10, ReviewStarted);
      Audit(ReviewStart);
    }

    method AssessRisk(env: ToolEnv) returns (failure: Option<Failure>)
      modifies `run, `risk, `policy, `events, `audits
      ensures (Rows(), failure) == VendorTables.AssessRisk(old(Rows()), env)
    {
      risk := Some(RiskScore(jurisdiction));
      var (row, raised) := CallTool(policy, env, "tool_handler_unavailable");
      policy, failure := row, raised;
      if failure.Some? {
        RequiredToolFailed(PolicySearch, failure.value);
      } else {
        AppendEvent(20, RiskAssessed);
        AppendEvent(25, RiskPolicyContext);
        Audit(RiskAssess);
      }
    }

    method RequestApproval(freshId: Uuid) returns (requestId: Uuid)
      modifies `run, `requests, `events, `audits
      ensures (Rows(), requestId) == VendorTables.RequestApproval(old(Rows()), freshId)
    {
      if requests == [] {
        requests := [Request(freshId, Open, 1)];
      }
      if run != RunStatus.Waiting {
        run := RunStatus.Waiting;
      }
      AppendEvent(30, ApprovalRequested);
      Audit(RequestCreate);
      requestId := requests[0].id;
    }

    /** Undo of everything the open transaction wrote. */
    method Rollback(saved: Tables)
      requires saved.jurisdiction == jurisdiction
      modifies this
      ensures Rows() == saved
    {
      run, vendor, risk := saved.run, saved.vendor, saved.risk;
      requests, decisions, projections := saved.requests, saved.decisions, saved.projections;
      emails, events, audits := saved.emails, saved.events, saved.audits;
      lookup, policy, mail := saved.lookup, saved.policy, saved.mail;
    }

    /** The email.send tool: replay of a stored invocation, else the handler's find-or-insert. */
    method SendEmail(env: EmailEnv) returns (ok: bool)
      modifies `emails, `mail
      ensures ok <==> VendorTables.SendEmail(old(Rows()), env).Some?
      ensures ok ==> Rows() == VendorTables.SendEmail(old(Rows()), env).value
      ensures !ok ==> Rows() == old(Rows())
    {
      if mail.Some? {
        return mail.value.Usable?;
      }
      if !env.EmailSent? {
        return false;
      }
      if APPROVAL_EMAIL !in emails {
        emails := emails + [APPROVAL_EMAIL];
      }
      mail := Some(Usable);
      return true;
    }

    /** The decision row, and the request, vendor, run and projection rows that follow from it. */
    method ApplyDecision(i: nat, d: Decision)
      requires i < |requests| && requests[i].id == d.requestId
      modifies `requests, `decisions, `vendor, `run, `projections
      ensures Rows() == Decided(old(Rows()), i, d)
    {
      var status := if d.verdict.Approved? then Granted else Refused;
      decisions := decisions + [DecisionRow(requests[i].id, d.decidedBy, status, d.rationale, d.key)];
      requests := requests[i := Request(requests[i].id, status, requests[i].version + 1)];
      vendor := if d.verdict.Approved? then Onboarded else TurnedDown;
      run := if d.verdict.Approved? then RunStatus.Succeeded else RunStatus.Rejected;
      if d.verdict.Approved? && projections == [] {
        projections := [requests[i].id];
      }
    }

    /** The guards before the first write: None lets the decision be applied to the request found. */
    method CheckDecision(d: Decision) returns (i: int, refused: Option<Option<RecordError>>)
      ensures refused.None? ==>
        && 0 <= i < |requests| && requests[i].id == d.requestId
        && forall env :: VendorTables.RecordDecision(Rows(), d, env) == RecordPending(Rows(), i, d, env)
      ensures refused.Some? ==> forall env :: VendorTables.RecordDecision(Rows(), d, env) == (Rows(), refused.value)
    {
      i := FindRequest(requests, d.requestId);
      if i < 0 {
        return i, Some(Some(StateMissing));
      }
      var k := FindDecision(decisions, d.requestId, d.key);
      if k >= 0 {
        var existing := decisions[k];
        if existing.decidedBy != d.decidedBy || existing.decision != StatusOf(d.verdict)
           || existing.rationale != d.rationale {
          return i, Some(Some(KeyConflict));
        }
        return i, Some(None);
      }
      if requests[i].status != Open || requests[i].version != d.expectedVersion {
        return i, Some(Some(NotPendingAtVersion));
      }
      return i, None;
    }

    method RecordDecision(d: Decision, env: EmailEnv) returns (error: Option<RecordError>)
      modifies this
      ensures (Rows(), error) == VendorTables.RecordDecision(old(Rows()), d, env)
    {
      var saved := Rows();
      var i, refused := CheckDecision(d);
      if refused.Some? {
        return refused.value;
      }
      ApplyDecision(i, d);
      if d.verdict.Approved? {
        var sent := SendEmail(env);
        if !sent {
          Rollback(saved);
          if mail.None? && env.EmailDenied? {
            mail := Some(NotExecuted);
          }
          return Some(EmailUnavailable);
        }
      }
      AppendEvent(40, ApprovalDecided(d.verdict));
      Audit(DecisionRecord);
      return None;
    }

    method CancelReview()
      modifies this
      ensures Rows() == VendorTables.CancelReview(old(Rows()))
    {
      if run in {RunStatus.Succeeded, RunStatus.Rejected, RunStatus.Cancelled} {
        return;
      }
      if requests != [] && requests[0].status == Open {
        requests := requests[0 := Request(requests[0].id, Withdrawn, requests[0].version + 1)];
      }
      run := RunStatus.Cancelled;
      AppendEvent(50, ReviewCancelled);
      Audit(WorkflowCancel);
    }
  }
}
