/**
 The governed tool gateway. A call runs inside its caller's transaction: the rows that it inserts
 stay pending until that transaction commits or rolls back, and an insert waits for another
 transaction's pending row under the same unique key. A terminal attempt goes to the independent
 audit database, when one is configured, and so survives the caller's rollback.
 */
module ToolGateway {
  import opened Base

  /** The unique key of an invocation row and of an email row. */
  datatype Slot = Slot(run: Uuid, key: string)

  datatype Definition = Definition(name: string, version: string)

  datatype Terms = Terms(enabled: bool, approvalRequired: bool)

  datatype InvocationStatus = Succeeded | Denied | Failed

  datatype Category =
    | NoError
    | UnregisteredTool | PolicyDenied | ApprovalRequired
    | HandlerUnavailable | InvalidArguments | VersionMismatch
    | Timeout | InvalidResult | ExecutionFailed

  /** A stored argument fingerprint agrees with another exactly when the arguments do. */
  datatype Invocation = Invocation(
    requested: Definition,
    registered: bool,
    arguments: string,
    status: InvocationStatus,
    category: Category,
    result: string)

  datatype Call = Call(slot: Slot, agent: Uuid, requested: Definition, arguments: string)

  /** What the handler does with a call; `wrote` when it had inserted its email before it failed. */
  datatype Handled =
    | Returns(result: string)
    | TimesOut(wrote: bool)
    | ReturnsInvalid(wrote: bool)
    | Raises(wrote: bool)

  datatype Error = Conflict | ToolDenied | ApprovalNeeded | Unavailable | InvalidInput | NotPinned | HandlerRaised

  datatype Reply = Result(result: string) | Refused(error: Error) | Waiting

  /** The uncommitted rows of one transaction. */
  datatype Pending = Pending(slot: Slot, row: Invocation, binds: bool, emails: bool)

  datatype Execution = Execution(slot: Slot, definition: Definition)

  datatype State = State(
    catalog: map<Definition, Terms>,
    agents: set<Uuid>,
    snapshots: map<Uuid, set<Definition>>,       // by run, written when the run is created
    approved: set<Uuid>,                         // runs with an approved request and decision
    deciding: map<nat, Uuid>,                    // transactions that have approved a run and not committed yet
    invocations: map<Slot, Invocation>,
    bindings: map<(Uuid, string), Definition>,
    emails: set<Slot>,
    pending: map<nat, Pending>,
    executions: seq<Execution>)                  // handler runs, whether or not they commit

  const EMAIL := "synthetic_email_send"
  const HANDLERS := {"vendor_database_query", "internal_policy_search", EMAIL, "order_details", "refund_policy"}

  // ----- One call -----

  function StatusFor(category: Category): InvocationStatus {
    match category
    case NoError => Succeeded
    case UnregisteredTool | PolicyDenied | ApprovalRequired => Denied
    case _ => Failed
  }

  function ErrorFor(category: Category): Error {
    match category
    case PolicyDenied => ToolDenied
    case ApprovalRequired => ApprovalNeeded
    case InvalidArguments => InvalidInput
    case VersionMismatch => NotPinned
    case ExecutionFailed => HandlerRaised
    case _ => Unavailable
  }

  predicate Permitted(s: State, call: Call) {
    && call.requested in s.catalog
    && call.agent in s.agents
    && s.catalog[call.requested].enabled
    && call.slot.run in s.snapshots
    && call.requested in s.snapshots[call.slot.run]
  }

  /** The approvals that a transaction sees: the committed ones and its own. */
  function ApprovedFor(s: State, p: nat): set<Uuid> {
    s.approved + if p in s.deciding then {s.deciding[p]} else {}
  }

  function BindingKey(slot: Slot, definition: Definition): (Uuid, string) {
    (slot.run, definition.name)
  }

  /** The first check that a call under an unused key fails, in the order the gateway makes them. */
  function FirstFailure(s: State, p: nat, call: Call, argumentsValid: bool): Option<Category> {
    var bound := BindingKey(call.slot, call.requested);
    if call.requested !in s.catalog then Some(UnregisteredTool)
    else if !Permitted(s, call) then Some(PolicyDenied)
    else if s.catalog[call.requested].approvalRequired && call.slot.run !in ApprovedFor(s, p)
    then Some(ApprovalRequired)
    else if call.requested.name !in HANDLERS then Some(HandlerUnavailable)
    else if !argumentsValid then Some(InvalidArguments)
    else if bound in s.bindings && s.bindings[bound] != call.requested then Some(VersionMismatch)
    else None
  }

  /** The answer to a key that already has a row. */
  function Replay(row: Invocation, call: Call): Reply {
    if row.arguments != call.arguments then Refused(Conflict)
    else if row.status.Succeeded? then Result(row.result)
    else if row.status.Denied? then Refused(ToolDenied)
    else if row.category.ApprovalRequired? then Refused(ApprovalNeeded)
    else Refused(Unavailable)
  }

  predicate SlotPending(s: State, slot: Slot) {
    exists p :: p in s.pending && s.pending[p].slot == slot
  }

  predicate BindingPending(s: State, slot: Slot, definition: Definition) {
    exists p :: p in s.pending && s.pending[p].binds
                && BindingKey(s.pending[p].slot, s.pending[p].row.requested) == BindingKey(slot, definition)
  }

  function AttemptRow(s: State, call: Call, category: Category): Invocation {
    Invocation(call.requested, call.requested in s.catalog, call.arguments, StatusFor(category), category, "")
  }

  function Attempt(s: State, p: nat, call: Call, category: Category, audited: bool): State {
    var row := AttemptRow(s, call, category);
    if audited then s.(invocations := s.invocations[call.slot := row])
    else s.(pending := s.pending[p := Pending(call.slot, row, false, false)])
  }

  function CategoryOf(handled: Handled): Category {
    match handled
    case Returns(_) => NoError
    case TimesOut(_) => Timeout
    case ReturnsInvalid(_) => InvalidResult
    case Raises(_) => ExecutionFailed
  }

  function HandledRow(call: Call, handled: Handled): Invocation {
    var category := CategoryOf(handled);
    Invocation(call.requested, true, call.arguments, StatusFor(category), category,
               if handled.Returns? then handled.result else "")
  }

  /** The pin, the invocation row and the handler's own row, none of them committed yet. */
  function Execute(s: State, p: nat, call: Call, handled: Handled): State {
    var wrote := handled.Returns? || handled.wrote;
    s.(pending := s.pending[p := Pending(call.slot, HandledRow(call, handled),
                                         BindingKey(call.slot, call.requested) !in s.bindings,
                                         call.requested.name == EMAIL && wrote)],
       executions := s.executions + [Execution(call.slot, call.requested)])
  }

  function Invoke(s: State, p: nat, call: Call, argumentsValid: bool, handled: Handled, audited: bool)
    : (r: (State, Reply))
    requires p !in s.pending
    ensures r.0.catalog == s.catalog && r.0.bindings == s.bindings && r.0.emails == s.emails
    ensures forall slot :: slot in s.invocations ==>
              slot in r.0.invocations && r.0.invocations[slot] == s.invocations[slot]
    ensures || r.0.executions == s.executions
            || (&& call.slot !in s.invocations && p in r.0.pending
                && r.0.executions == s.executions + [Execution(call.slot, call.requested)])
  {
    if call.slot in s.invocations then
      (s, if call.requested in s.catalog then Replay(s.invocations[call.slot], call) else Refused(Unavailable))
    else if SlotPending(s, call.slot) then (s, Waiting)
    else
      var failure := FirstFailure(s, p, call, argumentsValid);
      if failure.Some? then (Attempt(s, p, call, failure.value, audited), Refused(ErrorFor(failure.value)))
      else if BindingPending(s, call.slot, call.requested) then (s, Waiting)
      else
        (Execute(s, p, call, handled),
         if handled.Returns? then Result(handled.result) else Refused(ErrorFor(CategoryOf(handled))))
  }

  /** A controlled adapter failure is recorded under a registered tool's unused key. */
  function RecordInjectedFailure(s: State, p: nat, call: Call, audited: bool): State
    requires p !in s.pending
  {
    if call.requested !in s.catalog || call.slot in s.invocations || SlotPending(s, call.slot) then s
    else Attempt(s, p, call, ExecutionFailed, audited)
  }

  /** The invocation, binding and email that a transaction has written. */
  function CommitRows(s: State, p: nat): State
    requires p in s.pending
  {
    var w := s.pending[p];
    s.(invocations := s.invocations[w.slot := w.row],
       bindings := if w.binds then s.bindings[BindingKey(w.slot, w.row.requested) := w.row.requested] else s.bindings,
       emails := if w.emails then s.emails + {w.slot} else s.emails,
       pending := s.pending - {p})
  }

  /** The transaction's approval and its gateway rows become visible together. */
  function Commit(s: State, p: nat): State {
    var t := s.(approved := ApprovedFor(s, p), deciding := s.deciding - {p});
    if p in t.pending then CommitRows(t, p) else t
  }

  function Rollback(s: State, p: nat): State {
    s.(pending := s.pending - {p}, deciding := s.deciding - {p})
  }

  // ----- The gateway as an object over its tables -----

  class Gateway {
    const audited: bool
    var catalog: map<Definition, Terms>
    var agents: set<Uuid>
    var snapshots: map<Uuid, set<Definition>>
    var approved: set<Uuid>
    var deciding: map<nat, Uuid>
    var invocations: map<Slot, Invocation>
    var bindings: map<(Uuid, string), Definition>
    var emails: set<Slot>
    var pending: map<nat, Pending>
    ghost var executions: seq<Execution>

    constructor (audited: bool, catalog: map<Definition, Terms>)
      ensures this.audited == audited && Tables() == Initial(catalog)
    {
      this.audited := audited;
      this.catalog, agents, snapshots, approved, deciding := catalog, {}, map[], {}, map[];
      invocations, bindings, emails, pending, executions := map[], map[], {}, map[], [];
    }

    ghost function Tables(): State
      reads this
    {
      State(catalog, agents, snapshots, approved, deciding, invocations, bindings, emails, pending, executions)
    }

    /** Persist a terminal attempt in the independent recorder when one is configured. */
    method RecordTerminalAttempt(p: nat, call: Call, category: Category)
      requires p !in pending && call.slot !in invocations
      modifies `invocations, `pending
      ensures Tables() == Attempt(old(Tables()), p, call, category, audited)
    {
      var row := Invocation(call.requested, call.requested in catalog, call.arguments,
                            StatusFor(category), category, "");
      if audited {
        invocations := invocations[call.slot := row];
      } else {
        pending := pending[p := Pending(call.slot, row, false, false)];
      }
    }

    /** The answer that the row of a used key gives, whatever tool the call names. */
    method ReplayStored(call: Call) returns (reply: Reply)
      requires call.slot in invocations
      ensures reply == if call.requested in catalog then Replay(invocations[call.slot], call)
                       else Refused(Unavailable)
    {
      var row := invocations[call.slot];
      if call.requested !in catalog {
        return Refused(Unavailable);
      }
      if row.arguments != call.arguments {
        return Refused(Conflict);
      }
      if row.status == Succeeded {
        return Result(row.result);
      }
      if row.status == Denied {
        return Refused(ToolDenied);
      }
      return Refused(if row.category == ApprovalRequired then ApprovalNeeded else Unavailable);
    }

    /** An approved decision of the run, committed or written earlier in the same transaction. */
    method HasApprovedDecision(p: nat, run: Uuid) returns (approvedDecision: bool)
      ensures approvedDecision == (run in ApprovedFor(Tables(), p))
    {
      approvedDecision := run in approved || (p in deciding && deciding[p] == run);
    }

    /** The checks that precede the handler, the last of them against the definition that the run is bound to. */
    method Admit(p: nat, call: Call, argumentsValid: bool) returns (failure: Option<Category>)
      ensures failure == FirstFailure(Tables(), p, call, argumentsValid)
    {
      if call.requested !in catalog {
        return Some(UnregisteredTool);
      }
      var terms := catalog[call.requested];
      if call.agent !in agents || !terms.enabled || call.slot.run !in snapshots
         || call.requested !in snapshots[call.slot.run] {
        return Some(PolicyDenied);
      }
      if terms.approvalRequired {
        var approvedDecision := HasApprovedDecision(p, call.slot.run);
        if !approvedDecision {
          return Some(ApprovalRequired);
        }
      }
      if call.requested.name !in HANDLERS {
        return Some(HandlerUnavailable);
      }
      if !argumentsValid {
        return Some(InvalidArguments);
      }
      var bound := (call.slot.run, call.requested.name);
      if bound in bindings && bindings[bound] != call.requested {
        return Some(VersionMismatch);
      }
      return None;
    }

    method InvokeTool(p: nat, call: Call, argumentsValid: bool, handled: Handled) returns (reply: Reply)
      requires p !in pending
      modifies `invocations, `pending, `executions
      ensures (Tables(), reply) == Invoke(old(Tables()), p, call, argumentsValid, handled, audited)
    {
      if call.slot in invocations {
        reply := ReplayStored(call);
        return;
      }
      if exists q :: q in pending && pending[q].slot == call.slot {
        return Waiting;
      }
      var failure := Admit(p, call, argumentsValid);
      if failure.Some? {
        RecordTerminalAttempt(p, call, failure.value);
        return Refused(ErrorFor(failure.value));
      }
      if exists q :: q in pending && pending[q].binds
                     && BindingKey(pending[q].slot, pending[q].row.requested) == BindingKey(call.slot, call.requested) {
        return Waiting;
      }
      reply := Handle(p, call, handled);
    }

    method InjectFailure(p: nat, call: Call) returns (registered: bool)
      requires p !in pending
      modifies `invocations, `pending
      ensures Tables() == RecordInjectedFailure(old(Tables()), p, call, audited)
      ensures registered == (call.requested in catalog)
    {
      registered := call.requested in catalog;
      if registered && call.slot !in invocations && !exists q :: q in pending && pending[q].slot == call.slot {
        RecordTerminalAttempt(p, call, ExecutionFailed);
      }
    }

    /** Bind the tool name unless the run has bound it, insert the invocation, run the handler, settle the row. */
    method Handle(p: nat, call: Call, handled: Handled) returns (reply: Reply)
      requires p !in pending
      modifies `pending, `executions
      ensures Tables() == Execute(old(Tables()), p, call, handled)
      ensures reply == if handled.Returns? then Result(handled.result) else Refused(ErrorFor(CategoryOf(handled)))
    {
      executions := executions + [Execution(call.slot, call.requested)];
      var row := Invocation(call.requested, true, call.arguments, Failed, ExecutionFailed, "");
      var wrote := true;
      match handled {
        case Returns(result) =>
          row := row.(status := Succeeded, category := NoError, result := result);
          reply := Result(result);
        case TimesOut(w) =>
          row, wrote := row.(category := Timeout), w;
          reply := Refused(Unavailable);
        case ReturnsInvalid(w) =>
          row, wrote := row.(category := InvalidResult), w;
          reply := Refused(Unavailable);
        case Raises(w) =>
          wrote := w;
          reply := Refused(HandlerRaised);
      }
      var binds := (call.slot.run, call.requested.name) !in bindings;
      pending := pending[p := Pending(call.slot, row, binds, call.requested.name == EMAIL && wrote)];
    }
  }

  // ----- Runs -----

  datatype Step =
    | AddAgent(agent: Uuid)
    | CreateRun(run: Uuid, grants: set<Definition>)
    | SetEnabled(definition: Definition, enabled: bool)
    | Approve(run: Uuid)                // in a transaction of its own
    | ApproveInside(p: nat, run: Uuid)  // in a transaction that goes on to call a tool
    | InvokeStep(p: nat, call: Call, argumentsValid: bool, handled: Handled, audited: bool)
    | InjectStep(p: nat, call: Call, audited: bool)
    | CommitStep(p: nat)
    | RollbackStep(p: nat)

  function Initial(catalog: map<Definition, Terms>): State {
    State(catalog, {}, map[], {}, map[], map[], map[], {}, map[], [])
  }

  function Next(s: State, step: Step): State {
    match step
    case AddAgent(agent) => s.(agents := s.agents + {agent})
    case CreateRun(run, grants) =>
      if run in s.snapshots then s else s.(snapshots := s.snapshots[run := grants])
    case SetEnabled(definition, enabled) =>
      if definition !in s.catalog then s
      else s.(catalog := s.catalog[definition := s.catalog[definition].(enabled := enabled)])
    case Approve(run) => s.(approved := s.approved + {run})
    case ApproveInside(p, run) =>
      if p in s.pending || p in s.deciding then s else s.(deciding := s.deciding[p := run])
    case InvokeStep(p, call, argumentsValid, handled, audited) =>
      if p in s.pending then s else Invoke(s, p, call, argumentsValid, handled, audited).0
    case InjectStep(p, call, audited) =>
      if p in s.pending then s else RecordInjectedFailure(s, p, call, audited)
    case CommitStep(p) => Commit(s, p)
    case RollbackStep(p) => Rollback(s, p)
  }

  function Run(s: State, schedule: seq<Step>): State
    decreases |schedule|
  {
    if schedule == [] then s else Run(Next(s, schedule[0]), schedule[1..])
  }

  lemma {:induction false} RunConcat(s: State, first: seq<Step>, second: seq<Step>)
    ensures Run(s, first + second) == Run(Run(s, first), second)
    decreases |first|
  {
    if first == [] {
      assert first + second == second;
    } else {
      assert (first + second)[1..] == first[1..] + second;
      RunConcat(Next(s, first[0]), first[1..], second);
    }
  }

  // ----- The gateway invariant -----

  predicate Granted(s: State, run: Uuid, definition: Definition) {
    run in s.snapshots && definition in s.snapshots[run]
  }

  /** A row says SUCCEEDED only of a granted definition, and ApprovalRequired only of a denial. */
  predicate RowOk(s: State, slot: Slot, row: Invocation) {
    && row.status == StatusFor(row.category)
    && (row.status.Succeeded? ==> Granted(s, slot.run, row.requested))
  }

  predicate Bound(s: State, slot: Slot, row: Invocation) {
    var k := BindingKey(slot, row.requested);
    k in s.bindings && s.bindings[k] == row.requested
  }

  predicate EmailOk(s: State, approved: set<Uuid>, slot: Slot, definition: Definition) {
    && definition.name == EMAIL
    && definition in s.catalog
    && (s.catalog[definition].approvalRequired ==> slot.run in approved)
  }

  predicate CommittedOk(s: State) {
    && (forall slot :: slot in s.invocations ==> RowOk(s, slot, s.invocations[slot]))
    && (forall slot :: slot in s.invocations && s.invocations[slot].status.Succeeded? ==>
          Bound(s, slot, s.invocations[slot]))
    && (forall slot :: slot in s.emails ==>
          slot in s.invocations && EmailOk(s, s.approved, slot, s.invocations[slot].requested))
  }

  /** A pending transaction pins, or found pinned, whatever it is about to report as succeeded. */
  predicate PendingOk(s: State, approved: set<Uuid>, w: Pending) {
    && w.slot !in s.invocations
    && RowOk(s, w.slot, w.row)
    && (w.row.status.Succeeded? ==> w.binds || Bound(s, w.slot, w.row))
    && (w.binds ==> BindingKey(w.slot, w.row.requested) !in s.bindings)
    && (w.emails ==> EmailOk(s, approved, w.slot, w.row.requested))
  }

  predicate Exclusive(v: Pending, w: Pending) {
    && v.slot != w.slot
    && (v.binds && w.binds ==> BindingKey(v.slot, v.row.requested) != BindingKey(w.slot, w.row.requested))
  }

  predicate Inv(s: State) {
    && CommittedOk(s)
    && (forall p :: p in s.pending ==> PendingOk(s, ApprovedFor(s, p), s.pending[p]))
    && (forall p, q :: p in s.pending && q in s.pending && p != q ==> Exclusive(s.pending[p], s.pending[q]))
  }

  lemma PendingRowKeepsInv(s: State, p: nat, w: Pending)
    requires Inv(s) && p !in s.pending && PendingOk(s, ApprovedFor(s, p), w)
    requires forall q :: q in s.pending ==> Exclusive(s.pending[q], w) && Exclusive(w, s.pending[q])
    ensures Inv(s.(pending := s.pending[p := w]))
  {
  }

  lemma AuditedRowKeepsInv(s: State, slot: Slot, row: Invocation)
    requires Inv(s) && slot !in s.invocations && !SlotPending(s, slot)
    requires RowOk(s, slot, row) && !row.status.Succeeded?
    ensures Inv(s.(invocations := s.invocations[slot := row]))
  {
  }

  lemma AttemptKeepsInv(s: State, p: nat, call: Call, category: Category, audited: bool)
    requires Inv(s) && p !in s.pending && !category.NoError?
    requires call.slot !in s.invocations && !SlotPending(s, call.slot)
    ensures Inv(Attempt(s, p, call, category, audited))
  {
    var row := AttemptRow(s, call, category);
    if audited {
      AuditedRowKeepsInv(s, call.slot, row);
    } else {
      PendingRowKeepsInv(s, p, Pending(call.slot, row, false, false));
    }
  }

  lemma ExecuteKeepsInv(s: State, p: nat, call: Call, handled: Handled)
    requires Inv(s) && p !in s.pending
    requires call.slot !in s.invocations && !SlotPending(s, call.slot)
    requires FirstFailure(s, p, call, true).None? && !BindingPending(s, call.slot, call.requested)
    ensures Inv(Execute(s, p, call, handled))
  {
  }

  lemma CommitRowsKeepsCommitted(s: State, p: nat)
    requires Inv(s) && p in s.pending && ApprovedFor(s, p) == s.approved
    ensures CommittedOk(CommitRows(s, p))
  {
  }

  lemma CommitRowsKeepsPending(s: State, p: nat, q: nat)
    requires Inv(s) && p in s.pending && q in s.pending && p != q
    ensures PendingOk(CommitRows(s, p), ApprovedFor(s, q), s.pending[q])
  {
    assert Exclusive(s.pending[p], s.pending[q]);
  }

  lemma CommitRowsKeepsInv(s: State, p: nat)
    requires Inv(s) && p in s.pending && ApprovedFor(s, p) == s.approved
    ensures Inv(CommitRows(s, p))
  {
    var t := CommitRows(s, p);
    CommitRowsKeepsCommitted(s, p);
    forall q | q in t.pending ensures PendingOk(t, ApprovedFor(t, q), t.pending[q]) {
      CommitRowsKeepsPending(s, p, q);
      assert ApprovedFor(t, q) == ApprovedFor(s, q);
    }
  }

  lemma CommitKeepsInv(s: State, p: nat)
    requires Inv(s)
    ensures Inv(Commit(s, p))
  {
    var t := s.(approved := ApprovedFor(s, p), deciding := s.deciding - {p});
    WidenedKeepsInv(s, t);
    if p in t.pending {
      CommitRowsKeepsInv(t, p);
    }
  }

  lemma InvokeKeepsInv(s: State, p: nat, call: Call, argumentsValid: bool, handled: Handled, audited: bool)
    requires Inv(s) && p !in s.pending
    ensures Inv(Invoke(s, p, call, argumentsValid, handled, audited).0)
  {
    if call.slot !in s.invocations && !SlotPending(s, call.slot) {
      var failure := FirstFailure(s, p, call, argumentsValid);
      if failure.Some? {
        AttemptKeepsInv(s, p, call, failure.value, audited);
      } else if !BindingPending(s, call.slot, call.requested) {
        ExecuteKeepsInv(s, p, call, handled);
      }
    }
  }

  lemma InjectKeepsInv(s: State, p: nat, call: Call, audited: bool)
    requires Inv(s) && p !in s.pending
    ensures Inv(RecordInjectedFailure(s, p, call, audited))
  {
    if call.requested in s.catalog && call.slot !in s.invocations && !SlotPending(s, call.slot) {
      AttemptKeepsInv(s, p, call, ExecutionFailed, audited);
    }
  }

  /** More agents, runs and approvals, or a toggled definition, leave the recorded history as it is. */
  predicate Widened(s: State, t: State) {
    && t == s.(catalog := t.catalog, agents := t.agents, snapshots := t.snapshots,
               approved := t.approved, deciding := t.deciding)
    && s.approved <= t.approved
    && (forall p :: p in s.pending ==> ApprovedFor(s, p) <= ApprovedFor(t, p))
    && (forall run :: run in s.snapshots ==> run in t.snapshots && t.snapshots[run] == s.snapshots[run])
    && t.catalog.Keys == s.catalog.Keys
    && (forall d :: d in s.catalog ==> t.catalog[d].approvalRequired == s.catalog[d].approvalRequired)
  }

  lemma WidenedRows(s: State, t: State, slot: Slot, row: Invocation)
    requires Widened(s, t) && RowOk(s, slot, row)
    ensures RowOk(t, slot, row)
  {
  }

  lemma WidenedKeepsInv(s: State, t: State)
    requires Inv(s) && Widened(s, t)
    ensures Inv(t)
  {
    forall slot | slot in t.invocations ensures RowOk(t, slot, t.invocations[slot]) {
      WidenedRows(s, t, slot, s.invocations[slot]);
    }
    forall p | p in t.pending ensures PendingOk(t, ApprovedFor(t, p), t.pending[p]) {
      assert PendingOk(s, ApprovedFor(s, p), s.pending[p]);
      WidenedRows(s, t, s.pending[p].slot, s.pending[p].row);
    }
  }

  lemma RollbackKeepsInv(s: State, p: nat)
    requires Inv(s)
    ensures Inv(Rollback(s, p))
  {
    var t := s.(pending := s.pending - {p});
    assert Inv(t);
    WidenedKeepsInv(t, Rollback(s, p));
  }

  lemma SetupWidens(s: State, step: Step)
    requires step.AddAgent? || step.CreateRun? || step.SetEnabled? || step.Approve? || step.ApproveInside?
    ensures Widened(s, Next(s, step))
  {
  }

  lemma NextKeepsInv(s: State, step: Step)
    requires Inv(s)
    ensures Inv(Next(s, step))
  {
    match step {
      case InvokeStep(p, call, argumentsValid, handled, audited) =>
        if p !in s.pending { InvokeKeepsInv(s, p, call, argumentsValid, handled, audited); }
      case InjectStep(p, call, audited) =>
        if p !in s.pending { InjectKeepsInv(s, p, call, audited); }
      case CommitStep(p) => CommitKeepsInv(s, p);
      case RollbackStep(p) => RollbackKeepsInv(s, p);
      case _ =>
        SetupWidens(s, step);
        WidenedKeepsInv(s, Next(s, step));
    }
  }

  lemma {:induction false} RunKeepsInv(s: State, schedule: seq<Step>)
    requires Inv(s)
    ensures Inv(Run(s, schedule))
    decreases |schedule|
  {
    if schedule != [] {
      NextKeepsInv(s, schedule[0]);
      RunKeepsInv(Next(s, schedule[0]), schedule[1..]);
    }
  }
}
