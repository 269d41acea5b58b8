/**
 Who gets to run a tool. Every gate is stated on the tables themselves: the catalog, the registered
 agents, the run's snapshot, the approvals that the transaction can see, and the run's bindings.
 */
module GatewayGates {
  import opened Base
  import opened ToolGateway
  import opened GatewayHistory

  const LOCAL_HANDLERS := {
    "vendor_database_query", "internal_policy_search", "synthetic_email_send", "order_details", "refund_policy"
  }

  /** The approvals that transaction p sees. */
  predicate SeesApproval(s: State, p: nat, run: Uuid) {
    run in s.approved || (p in s.deciding && s.deciding[p] == run)
  }

  predicate AgentMay(s: State, call: Call) {
    && call.agent in s.agents
    && call.requested in s.catalog && s.catalog[call.requested].enabled
    && call.slot.run in s.snapshots && call.requested in s.snapshots[call.slot.run]
  }

  predicate ApprovalGiven(s: State, p: nat, call: Call) {
    call.requested in s.catalog && s.catalog[call.requested].approvalRequired ==> SeesApproval(s, p, call.slot.run)
  }

  predicate BoundElsewhere(s: State, call: Call) {
    var k := (call.slot.run, call.requested.name);
    k in s.bindings && s.bindings[k] != call.requested
  }

  predicate KeyIsFree(s: State, slot: Slot) {
    slot !in s.invocations && forall q :: q in s.pending ==> s.pending[q].slot != slot
  }

  predicate NameIsFree(s: State, call: Call) {
    forall q :: q in s.pending && s.pending[q].binds ==>
      s.pending[q].slot.run != call.slot.run || s.pending[q].row.requested.name != call.requested.name
  }

  /** Every gate is open. */
  predicate EveryGateOpen(s: State, p: nat, call: Call, argumentsValid: bool) {
    && AgentMay(s, call) && ApprovalGiven(s, p, call)
    && call.requested.name in LOCAL_HANDLERS && argumentsValid && !BoundElsewhere(s, call)
  }

  // ----- When a handler runs -----

  /** A call runs its handler exactly under a free key and name with every gate open. */
  lemma CallRunsHandlerIff(s: State, p: nat, call: Call, argumentsValid: bool, handled: Handled, audited: bool)
    requires p !in s.pending
    ensures var t := Invoke(s, p, call, argumentsValid, handled, audited).0;
            && (t.executions != s.executions <==>
                  KeyIsFree(s, call.slot) && NameIsFree(s, call) && EveryGateOpen(s, p, call, argumentsValid))
            && (t.executions != s.executions ==> t.executions == s.executions + [Execution(call.slot, call.requested)])
  {
  }

  lemma HandlerRunsIff(s: State, step: Step)
    ensures Next(s, step).executions != s.executions <==>
            && step.InvokeStep? && step.p !in s.pending
            && KeyIsFree(s, step.call.slot) && NameIsFree(s, step.call)
            && EveryGateOpen(s, step.p, step.call, step.argumentsValid)
    ensures Next(s, step).executions != s.executions ==>
              Next(s, step).executions == s.executions + [Execution(step.call.slot, step.call.requested)]
  {
    if step.InvokeStep? && step.p !in s.pending {
      CallRunsHandlerIff(s, step.p, step.call, step.argumentsValid, step.handled, step.audited);
    } else {
      assert Next(s, step).executions == s.executions;
    }
  }

  /** Each handler run of a history happened at a step at which every gate was open. */
  lemma {:induction false} EveryExecutionWasGated(catalog: map<Definition, Terms>, schedule: seq<Step>, e: Execution)
    returns (k: nat)
    requires e in Run(Initial(catalog), schedule).executions
    ensures k < |schedule| && schedule[k].InvokeStep?
    ensures var s, step := Run(Initial(catalog), schedule[..k]), schedule[k];
            && e == Execution(step.call.slot, step.call.requested)
            && KeyIsFree(s, step.call.slot) && EveryGateOpen(s, step.p, step.call, step.argumentsValid)
    decreases |schedule|
  {
    assert schedule != [];
    var n := |schedule| - 1;
    var s := Run(Initial(catalog), schedule[..n]);
    assert schedule == schedule[..n] + [schedule[n]];
    RunConcat(Initial(catalog), schedule[..n], [schedule[n]]);
    assert Run(s, [schedule[n]]) == Next(s, schedule[n]);
    HandlerRunsIff(s, schedule[n]);
    if e in s.executions {
      k := EveryExecutionWasGated(catalog, schedule[..n], e);
      assert schedule[..n][..k] == schedule[..k];
    } else {
      k := n;
    }
  }

  // ----- What a call under a free key leaves -----

  /** The row that a call leaves under its key, committed at once or pending with the caller. */
  predicate Leaves(s: State, p: nat, call: Call, t: State, row: Invocation, atOnce: bool) {
    if atOnce then t == s.(invocations := s.invocations[call.slot := row])
    else
      && p in t.pending && t.pending[p].slot == call.slot && t.pending[p].row == row
      && t.invocations == s.invocations && t.pending == s.pending[p := t.pending[p]]
  }

  /** The first closed gate: how the row is marked, why, and what the caller is told. */
  function Refusal(s: State, p: nat, call: Call, argumentsValid: bool): (InvocationStatus, Category, Error) {
    if call.requested !in s.catalog then (Denied, UnregisteredTool, Unavailable)
    else if !AgentMay(s, call) then (Denied, PolicyDenied, ToolDenied)
    else if !ApprovalGiven(s, p, call) then (Denied, ApprovalRequired, ApprovalNeeded)
    else if call.requested.name !in LOCAL_HANDLERS then (Failed, HandlerUnavailable, Unavailable)
    else if !argumentsValid then (Failed, InvalidArguments, InvalidInput)
    else (Failed, VersionMismatch, NotPinned)
  }

  lemma FirstClosedGate(s: State, p: nat, call: Call, argumentsValid: bool)
    requires !EveryGateOpen(s, p, call, argumentsValid)
    ensures var (status, category, error) := Refusal(s, p, call, argumentsValid);
            && FirstFailure(s, p, call, argumentsValid) == Some(category)
            && StatusFor(category) == status && ErrorFor(category) == error
  {
  }

  /** Each refusal, in the order of the gates, with the row that records it. */
  lemma RefusalIsRecorded(s: State, p: nat, call: Call, argumentsValid: bool, handled: Handled, audited: bool)
    requires p !in s.pending && KeyIsFree(s, call.slot)
    requires !EveryGateOpen(s, p, call, argumentsValid)
    ensures var (t, reply) := Invoke(s, p, call, argumentsValid, handled, audited);
            var (status, category, error) := Refusal(s, p, call, argumentsValid);
            var row := Invocation(call.requested, call.requested in s.catalog, call.arguments, status, category, "");
            && reply == Refused(error)
            && Leaves(s, p, call, t, row, audited)
            && t.executions == s.executions
  {
    FirstClosedGate(s, p, call, argumentsValid);
    assert !SlotPending(s, call.slot);
  }

  /** With every gate open the handler's end decides reply, row, binding and email. */
  lemma HandlerEndIsRecorded(s: State, p: nat, call: Call, handled: Handled, audited: bool)
    requires p !in s.pending && KeyIsFree(s, call.slot) && NameIsFree(s, call)
    requires EveryGateOpen(s, p, call, true)
    ensures var (t, reply) := Invoke(s, p, call, true, handled, audited);
            var (status, category, result, answer) :=
              match handled
              case Returns(r) => (Succeeded, NoError, r, Result(r))
              case TimesOut(_) => (Failed, Timeout, "", Refused(Unavailable))
              case ReturnsInvalid(_) => (Failed, InvalidResult, "", Refused(Unavailable))
              case Raises(_) => (Failed, ExecutionFailed, "", Refused(HandlerRaised));
            && reply == answer
            && Leaves(s, p, call, t, Invocation(call.requested, true, call.arguments, status, category, result), false)
            && (t.pending[p].binds <==> (call.slot.run, call.requested.name) !in s.bindings)
            && (t.pending[p].emails <==>
                  call.requested.name == "synthetic_email_send" && (handled.Returns? || handled.wrote))
  {
  }

  /** A used key is answered from its row. */
  lemma UsedKeyIsAnswered(s: State, p: nat, call: Call, argumentsValid: bool, handled: Handled, audited: bool)
    requires p !in s.pending && call.slot in s.invocations
    ensures var row := s.invocations[call.slot];
            Invoke(s, p, call, argumentsValid, handled, audited) ==
            (s, if call.requested !in s.catalog then Refused(Unavailable)
                else if row.arguments != call.arguments then Refused(Conflict)
                else match row.status
                     case Succeeded => Result(row.result)
                     case Denied => Refused(ToolDenied)
                     case Failed => Refused(if row.category == ApprovalRequired then ApprovalNeeded else Unavailable))
  {
  }

  /** An injected failure is a FAILED row under the free key of a registered tool, and nothing otherwise. */
  lemma InjectedFailureIsRecorded(s: State, p: nat, call: Call, audited: bool)
    requires p !in s.pending
    ensures var t := RecordInjectedFailure(s, p, call, audited);
            var row := Invocation(call.requested, true, call.arguments, Failed, ExecutionFailed, "");
            if call.requested in s.catalog && KeyIsFree(s, call.slot) then Leaves(s, p, call, t, row, audited)
            else t == s
  {
  }

  /** Rows that wait with a transaction become visible together when it commits, and not at all otherwise. */
  lemma CommitPublishes(s: State, p: nat)
    requires p in s.pending
    ensures var w, t := s.pending[p], Commit(s, p);
            && t.invocations == s.invocations[w.slot := w.row]
            && t.bindings == (if w.binds then s.bindings[(w.slot.run, w.row.requested.name) := w.row.requested]
                              else s.bindings)
            && t.emails == s.emails + (if w.emails then {w.slot} else {})
            && t.approved == s.approved + (if p in s.deciding then {s.deciding[p]} else {})
            && p !in t.pending && p !in t.deciding && p !in Rollback(s, p).pending && p !in Rollback(s, p).deciding
            && Rollback(s, p) == s.(pending := s.pending - {p}, deciding := s.deciding - {p})
  {
  }

  /** An approval inside a transaction is seen there at once, and elsewhere only after its commit. */
  lemma InnerApprovalIsPrivate(s: State, p: nat, run: Uuid, q: nat)
    requires p !in s.pending && p !in s.deciding && q != p
    ensures var t := Next(s, ApproveInside(p, run));
            && SeesApproval(t, p, run)
            && (SeesApproval(t, q, run) <==> SeesApproval(s, q, run))
            && SeesApproval(Next(t, CommitStep(p)), q, run)
            && (SeesApproval(Next(t, RollbackStep(p)), q, run) <==> SeesApproval(s, q, run))
  {
  }
}
