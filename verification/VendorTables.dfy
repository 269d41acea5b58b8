/**
 The rows that one vendor-onboarding run owns, and each activity's transaction as a function
 from the rows before it to the rows after it. VendorActivities proves the imperative
 activities against these functions; VendorProtocol runs them under every schedule.
 */
module VendorTables {
  import opened Base
  import opened RunStates

  datatype VendorStatus = Submitted | UnderReview | Onboarded | TurnedDown

  datatype ApprovalStatus = Open | Granted | Refused | Withdrawn

  datatype Verdict = Approved | Rejected

  datatype Decision = Decision(
    requestId: Uuid, expectedVersion: int, verdict: Verdict,
    decidedBy: Uuid, rationale: string, key: string)

  datatype Request = Request(id: Uuid, status: ApprovalStatus, version: int)

  datatype DecisionRow = DecisionRow(
    requestId: Uuid, decidedBy: Uuid, decision: ApprovalStatus, rationale: string, key: string)

  datatype EventKind =
    | ReviewStarted
    | RiskAssessed
    | RiskPolicyContext
    | ApprovalRequested
    | ApprovalDecided(verdict: Verdict)
    | ReviewCancelled
    | ReviewFailed(category: string)

  datatype Event = Event(sequence: int, kind: EventKind)

  datatype AuditAction =
    | ReviewStart | RiskAssess | RequestCreate | DecisionRecord | WorkflowCancel
    | ToolRetry | ToolFailure

  /** A stored tool invocation: a usable answer, an unusable one, or a failed or denied call. */
  datatype ToolRow = Usable | Unusable | NotExecuted

  datatype Tables = Tables(
    run: RunStatus,
    vendor: VendorStatus,
    jurisdiction: string,
    risk: Option<int>,
    requests: seq<Request>,
    decisions: seq<DecisionRow>,
    projections: seq<Uuid>,       // approved_vendors, by approval request
    emails: seq<string>,          // synthetic_email_messages, by idempotency key
    events: seq<Event>,
    audits: seq<AuditAction>,
    lookup: Option<ToolRow>,      // tool_invocations row "<run>:vendor-lookup"
    policy: Option<ToolRow>,      // tool_invocations row "<run>:policy-search"
    mail: Option<ToolRow>)        // tool_invocations row "<run>:approval-email"

  /** The rows right after the API created the vendor and its run. */
  function InitialTables(jurisdiction: string): Tables {
    Tables(RunStatus.Pending, Submitted, jurisdiction, None, [], [], [], [], [], [], None, None, None)
  }

  const APPROVAL_EMAIL := "approval-email"

  // ----- What the environment contributes to one attempt -----

  datatype Fault = NoFault | Retryable(category: string) | Permanent(category: string)

  /** An injected fault that precedes a tool call, and what a first execution of it would store. */
  datatype ToolEnv = ToolEnv(fault: Fault, first: ToolRow, firstRetryable: bool, category: string)

  datatype EmailEnv = EmailSent | EmailDenied | EmailHandlerFails

  datatype Env = Env(lookup: ToolEnv, policy: ToolEnv, freshId: Uuid, mail: EmailEnv)

  datatype Failure = Failure(category: string, retryable: bool)

  datatype Tool = VendorLookup | PolicySearch

  // ----- Helpers shared by the activities -----

  predicate HasSequence(events: seq<Event>, sequence: int) {
    exists i :: 0 <= i < |events| && events[i].sequence == sequence
  }

  function Append(events: seq<Event>, sequence: int, kind: EventKind): seq<Event> {
    if HasSequence(events, sequence) then events else events + [Event(sequence, kind)]
  }

  function Audited(audits: seq<AuditAction>, action: AuditAction): seq<AuditAction> {
    if action in audits then audits else audits + [action]
  }

  function WithEvent(t: Tables, sequence: int, kind: EventKind, action: AuditAction): Tables {
    t.(events := Append(t.events, sequence, kind), audits := Audited(t.audits, action))
  }

  /** A governed tool call: an injected fault first, then replay of the stored row, then a first execution. */
  function CallTool(row: Option<ToolRow>, env: ToolEnv, unusable: string): (Option<ToolRow>, Option<Failure>) {
    match env.fault
    case Retryable(c) => (row, Some(Failure(c, true)))
    case Permanent(c) => (if row.None? then Some(NotExecuted) else row, Some(Failure(c, false)))
    case NoFault =>
      var stored := if row.None? then env.first else row.value;
      (Some(stored),
       match stored
       case Usable => None
       case Unusable => Some(Failure(unusable, false))
       case NotExecuted => Some(Failure(env.category, row.None? && env.firstRetryable)))
  }

  function FailureCategory(tool: Tool, f: Failure): string {
    if tool.PolicySearch? && !f.retryable then "policy_retrieval_failed"
    else if f.category == "authorization_denied" then "tool_permission_denied"
    else f.category
  }

  function RequiredToolFailed(t: Tables, tool: Tool, f: Failure): Tables {
    if f.retryable then
      t.(audits := Audited(t.audits, ToolRetry))
    else
      WithEvent(t.(run := RunStatus.Failed), if tool.VendorLookup? then 15 else 25,
                ReviewFailed(FailureCategory(tool, f)), ToolFailure)
  }

  // ----- The five activities -----

  function BeginReview(t: Tables, env: ToolEnv): (Tables, Option<Failure>) {
    var (row, failure) := CallTool(t.lookup, env, "vendor_identity_mismatch");
    var begun := t.(
      run := if t.run.Pending? then RunStatus.Running else t.run,
      vendor := if t.vendor.Submitted? then UnderReview else t.vendor,
      lookup := row);
    if failure.Some? then (RequiredToolFailed(begun, VendorLookup, failure.value), failure)
    else (WithEvent(begun, 10, ReviewStarted, ReviewStart), None)
  }

  function RiskScore(jurisdiction: string): int {
    if jurisdiction in {"US", "GB", "CA"} then 25 else 65
  }

  function AssessRisk(t: Tables, env: ToolEnv): (Tables, Option<Failure>) {
    var (row, failure) := CallTool(t.policy, env, "tool_handler_unavailable");
    var scored := t.(risk := Some(RiskScore(t.jurisdiction)), policy := row);
    if failure.Some? then (RequiredToolFailed(scored, PolicySearch, failure.value), failure)
    else
      (WithEvent(scored.(events := Append(scored.events, 20, RiskAssessed)), 25, RiskPolicyContext, RiskAssess), None)
  }

  function RequestApproval(t: Tables, freshId: Uuid): (Tables, Uuid) {
    var requests := if t.requests == [] then [Request(freshId, Open, 1)] else t.requests;
    (WithEvent(t.(requests := requests, run := RunStatus.Waiting), 30, ApprovalRequested, RequestCreate),
     requests[0].id)
  }

  datatype RecordError = StateMissing | KeyConflict | NotPendingAtVersion | EmailUnavailable

  function StatusOf(v: Verdict): ApprovalStatus {
    match v case Approved => Granted case Rejected => Refused
  }

  function RowOf(d: Decision): DecisionRow {
    DecisionRow(d.requestId, d.decidedBy, StatusOf(d.verdict), d.rationale, d.key)
  }

  /** The first row of the table that satisfies the query's condition. */
  function FindRequest(requests: seq<Request>, id: Uuid): (i: int)
    ensures -1 <= i < |requests|
    ensures i >= 0 ==> requests[i].id == id
    ensures i < 0 ==> forall j :: 0 <= j < |requests| ==> requests[j].id != id
  {
    if requests == [] then -1
    else if requests[0].id == id then 0
    else var i := FindRequest(requests[1..], id); if i < 0 then -1 else i + 1
  }

  function FindDecision(rows: seq<DecisionRow>, requestId: Uuid, key: string): (i: int)
    ensures -1 <= i < |rows|
    ensures i >= 0 ==> rows[i].requestId == requestId && rows[i].key == key
    ensures i < 0 ==> forall j :: 0 <= j < |rows| ==> rows[j].requestId != requestId || rows[j].key != key
  {
    if rows == [] then -1
    else if rows[0].requestId == requestId && rows[0].key == key then 0
    else var i := FindDecision(rows[1..], requestId, key); if i < 0 then -1 else i + 1
  }

  /** The email.send call inside the decision's transaction; None when it raises. */
  function SendEmail(t: Tables, env: EmailEnv): Option<Tables> {
    match t.mail
    case Some(Usable) => Some(t)
    case Some(_) => None
    case None =>
      if env.EmailSent? then
        Some(t.(mail := Some(Usable),
                emails := if APPROVAL_EMAIL in t.emails then t.emails else t.emails + [APPROVAL_EMAIL]))
      else None
  }

  /** What a rolled-back decision leaves behind: at most the audit database's terminal invocation. */
  function EmailRefusalRow(t: Tables, env: EmailEnv): Tables {
    if t.mail.None? && env.EmailDenied? then t.(mail := Some(NotExecuted)) else t
  }

  /** Everything the decision writes apart from the email, its event and its audit row. */
  function Decided(t: Tables, i: nat, d: Decision): Tables
    requires i < |t.requests|
  {
    var r := t.requests[i];
    var status := StatusOf(d.verdict);
    t.(requests := t.requests[i := Request(r.id, status, r.version + 1)],
       decisions := t.decisions + [RowOf(d)],
       vendor := if d.verdict.Approved? then Onboarded else TurnedDown,
       run := if d.verdict.Approved? then RunStatus.Succeeded else RunStatus.Rejected,
       projections := if d.verdict.Approved? && t.projections == [] then [r.id] else t.projections)
  }

  /** The decision's transaction once its request has been found pending at the expected version. */
  function RecordPending(t: Tables, i: nat, d: Decision, env: EmailEnv): (Tables, Option<RecordError>)
    requires i < |t.requests|
  {
    var sent := if d.verdict.Approved? then SendEmail(Decided(t, i, d), env) else Some(Decided(t, i, d));
    if sent.None? then (EmailRefusalRow(t, env), Some(EmailUnavailable))
    else (WithEvent(sent.value, 40, ApprovalDecided(d.verdict), DecisionRecord), None)
  }

  function RecordDecision(t: Tables, d: Decision, env: EmailEnv): (Tables, Option<RecordError>) {
    var i := FindRequest(t.requests, d.requestId);
    if i < 0 then (t, Some(StateMissing))
    else
      var k := FindDecision(t.decisions, d.requestId, d.key);
      if k >= 0 then
        (t, if t.decisions[k] == RowOf(d) then None else Some(KeyConflict))
      else if t.requests[i].status != Open || t.requests[i].version != d.expectedVersion then
        (t, Some(NotPendingAtVersion))
      else RecordPending(t, i, d, env)
  }

  function WithdrawFirst(requests: seq<Request>): seq<Request> {
    if requests != [] && requests[0].status == Open
    then requests[0 := Request(requests[0].id, Withdrawn, requests[0].version + 1)]
    else requests
  }

  function CancelReview(t: Tables): Tables {
    if t.run in {RunStatus.Succeeded, RunStatus.Rejected, RunStatus.Cancelled} then t
    else
      WithEvent(t.(run := RunStatus.Cancelled, requests := WithdrawFirst(t.requests)),
                50, ReviewCancelled, WorkflowCancel)
  }
}
