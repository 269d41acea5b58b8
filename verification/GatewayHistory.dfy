/** What the gateway's tables say after any history of interleaved transactions. */
module GatewayHistory {
  import opened Base
  import opened ToolGateway

  // ----- Rows are written once -----

  /** How often a handler has been run for the slot, committed or not. */
  function HandlerRuns(executions: seq<Execution>, slot: Slot): nat {
    if executions == [] then 0
    else HandlerRuns(executions[..|executions| - 1], slot)
         + if executions[|executions| - 1].slot == slot then 1 else 0
  }

  predicate Keeps(s: State, t: State, slot: Slot)
    requires slot in s.invocations
  {
    && slot in t.invocations && t.invocations[slot] == s.invocations[slot]
    && HandlerRuns(t.executions, slot) == HandlerRuns(s.executions, slot)
  }

  lemma OtherRun(executions: seq<Execution>, e: Execution, slot: Slot)
    requires e.slot != slot
    ensures HandlerRuns(executions + [e], slot) == HandlerRuns(executions, slot)
  {
    assert (executions + [e])[..|executions|] == executions;
  }

  lemma NextKeepsRow(s: State, step: Step, slot: Slot)
    requires Inv(s) && slot in s.invocations
    ensures Keeps(s, Next(s, step), slot)
  {
    if step.InvokeStep? && step.p !in s.pending {
      var t := Next(s, step);
      if t.executions != s.executions {
        OtherRun(s.executions, Execution(step.call.slot, step.call.requested), slot);
      }
    } else if step.CommitStep? && step.p in s.pending {
      assert PendingOk(s, ApprovedFor(s, step.p), s.pending[step.p]);
    }
  }

  lemma {:induction false} RowsFrom(s: State, more: seq<Step>, slot: Slot)
    requires Inv(s) && slot in s.invocations
    ensures Keeps(s, Run(s, more), slot)
    decreases |more|
  {
    if more != [] {
      NextKeepsInv(s, more[0]);
      NextKeepsRow(s, more[0], slot);
      RowsFrom(Next(s, more[0]), more[1..], slot);
    }
  }

  /** A used key never runs a handler again, and its row never changes. */
  lemma UsedKeyIsFrozen(catalog: map<Definition, Terms>, schedule: seq<Step>, more: seq<Step>, slot: Slot)
    requires slot in Run(Initial(catalog), schedule).invocations
    ensures Keeps(Run(Initial(catalog), schedule), Run(Initial(catalog), schedule + more), slot)
  {
    RunKeepsInv(Initial(catalog), schedule);
    RunConcat(Initial(catalog), schedule, more);
    RowsFrom(Run(Initial(catalog), schedule), more, slot);
  }

  // ----- Versions -----

  lemma NextKeepsBinding(s: State, step: Step, k: (Uuid, string))
    requires Inv(s) && k in s.bindings
    ensures k in Next(s, step).bindings && Next(s, step).bindings[k] == s.bindings[k]
  {
    if step.CommitStep? && step.p in s.pending {
      assert PendingOk(s, ApprovedFor(s, step.p), s.pending[step.p]);
    }
  }

  lemma {:induction false} BindingsFrom(s: State, more: seq<Step>, k: (Uuid, string))
    requires Inv(s) && k in s.bindings
    ensures k in Run(s, more).bindings && Run(s, more).bindings[k] == s.bindings[k]
    decreases |more|
  {
    if more != [] {
      NextKeepsInv(s, more[0]);
      NextKeepsBinding(s, more[0], k);
      BindingsFrom(Next(s, more[0]), more[1..], k);
    }
  }

  /** What has succeeded was granted to the run when it was created, and is the run's pinned version. */
  lemma SucceededIsGrantedAndPinned(catalog: map<Definition, Terms>, schedule: seq<Step>, slot: Slot)
    requires slot in Run(Initial(catalog), schedule).invocations
    requires Run(Initial(catalog), schedule).invocations[slot].status.Succeeded?
    ensures var s := Run(Initial(catalog), schedule);
            && Granted(s, slot.run, s.invocations[slot].requested)
            && Bound(s, slot, s.invocations[slot])
  {
    RunKeepsInv(Initial(catalog), schedule);
  }

  /** One tool name never succeeds at two versions in a run, however far apart the two calls are. */
  lemma OneVersionPerRun(catalog: map<Definition, Terms>, schedule: seq<Step>, more: seq<Step>, a: Slot, b: Slot)
    requires var s, t := Run(Initial(catalog), schedule), Run(Initial(catalog), schedule + more);
             && a in s.invocations && s.invocations[a].status.Succeeded?
             && b in t.invocations && t.invocations[b].status.Succeeded?
             && a.run == b.run && s.invocations[a].requested.name == t.invocations[b].requested.name
    ensures Run(Initial(catalog), schedule).invocations[a].requested.version
         == Run(Initial(catalog), schedule + more).invocations[b].requested.version
  {
    var s := Run(Initial(catalog), schedule);
    RunKeepsInv(Initial(catalog), schedule);
    RunKeepsInv(Initial(catalog), schedule + more);
    RunConcat(Initial(catalog), schedule, more);
    BindingsFrom(s, more, BindingKey(a, s.invocations[a].requested));
  }

  // ----- Replies -----

  /**
   A committed success is repeated to every later call under its key with the same arguments,
   whichever registered tool that call names: the replay comes before the agent, enabled and grant
   checks, and it does not compare tools.
   */
  lemma SuccessReplays(
      catalog: map<Definition, Terms>, schedule: seq<Step>, p: nat, call: Call, argumentsValid: bool,
      handled: Handled, audited: bool, more: seq<Step>, q: nat, again: Call, valid: bool, other: Handled)
    requires p !in Run(Initial(catalog), schedule).pending
    requires call.slot !in Run(Initial(catalog), schedule).invocations
    requires Invoke(Run(Initial(catalog), schedule), p, call, argumentsValid, handled, audited).1.Result?
    requires again.slot == call.slot
    ensures var s := Run(Initial(catalog), schedule);
            var (t, reply) := Invoke(s, p, call, argumentsValid, handled, audited);
            && p in t.pending
            && var later := Run(Commit(t, p), more);
               q !in later.pending && again.requested in later.catalog ==>
                 Invoke(later, q, again, valid, other, audited)
                 == (later, if again.arguments == call.arguments then reply else Refused(Conflict))
  {
    var s := Run(Initial(catalog), schedule);
    RunKeepsInv(Initial(catalog), schedule);
    var (t, reply) := Invoke(s, p, call, argumentsValid, handled, audited);
    InvokeKeepsInv(s, p, call, argumentsValid, handled, audited);
    CommitKeepsInv(t, p);
    RowsFrom(Commit(t, p), more, call.slot);
  }

  /** No replay ever asks for an approval, since a row that lacked one is stored as denied. */
  lemma ReplayNeverAsksForApproval(catalog: map<Definition, Terms>, schedule: seq<Step>, call: Call)
    requires call.slot in Run(Initial(catalog), schedule).invocations
    ensures Replay(Run(Initial(catalog), schedule).invocations[call.slot], call) != Refused(ApprovalNeeded)
  {
    RunKeepsInv(Initial(catalog), schedule);
  }

  /** A key that was refused for want of an approval stays denied after the approval is given. */
  lemma DenialOutlivesApproval(
      catalog: map<Definition, Terms>, schedule: seq<Step>, more: seq<Step>, q: nat, call: Call, valid: bool,
      handled: Handled, audited: bool)
    requires var s := Run(Initial(catalog), schedule);
             && call.slot in s.invocations && s.invocations[call.slot].category == ApprovalRequired
             && s.invocations[call.slot].arguments == call.arguments
    requires var later := Run(Initial(catalog), schedule + more);
             && q !in later.pending && call.requested in later.catalog
    ensures var later := Run(Initial(catalog), schedule + more);
            Invoke(later, q, call, valid, handled, audited) == (later, Refused(ToolDenied))
  {
    RunKeepsInv(Initial(catalog), schedule);
    UsedKeyIsFrozen(catalog, schedule, more, call.slot);
  }

  // ----- Two histories -----

  const ORDER := Definition("order_details", "1")
  const REFUND := Definition("refund_policy", "1")
  const MAIL := Definition(EMAIL, "1")
  const DESK: map<Definition, Terms> := map[ORDER := Terms(true, false), REFUND := Terms(true, false)]
  const OFFICE: map<Definition, Terms> := map[MAIL := Terms(true, true)]

  function CallOf(definition: Definition, key: string): Call {
    Call(Slot(0, key), 0, definition, "arguments")
  }

  function OrderHistory(): seq<Step> {
    [AddAgent(0), CreateRun(0, {ORDER}), InvokeStep(0, CallOf(ORDER, "key"), true, Returns("delivered"), true),
     CommitStep(0)]
  }

  lemma RunFour(s: State, a: Step, b: Step, c: Step, d: Step)
    ensures Run(s, [a, b, c, d]) == Next(Next(Next(Next(s, a), b), c), d)
  {
    var s1 := Next(s, a);
    var s2 := Next(s1, b);
    var s3 := Next(s2, c);
    assert [a, b, c, d][1..] == [b, c, d] && [b, c, d][1..] == [c, d] && [c, d][1..] == [d] && [d][1..] == [];
    assert Run(s3, [d]) == Run(Next(s3, d), []);
    assert Run(s2, [c, d]) == Run(s3, [d]);
    assert Run(s1, [b, c, d]) == Run(s2, [c, d]);
  }

  /** A tool that the run was never granted answers with another tool's result. */
  lemma UngrantedToolReplays()
    ensures var s := Run(Initial(DESK), OrderHistory());
            && !Granted(s, 0, REFUND) && 1 !in s.pending
            && FirstFailure(s, 1, CallOf(REFUND, "other"), true) == Some(PolicyDenied)
            && Invoke(s, 1, CallOf(REFUND, "key"), true, Returns("policy"), true) == (s, Result("delivered"))
  {
    var h := OrderHistory();
    RunFour(Initial(DESK), h[0], h[1], h[2], h[3]);
    assert h == [h[0], h[1], h[2], h[3]];
    var s2 := Next(Next(Initial(DESK), h[0]), h[1]);
    assert FirstFailure(s2, 0, CallOf(ORDER, "key"), true).None?;
    var s3 := Next(s2, h[2]);
    var row := HandledRow(CallOf(ORDER, "key"), Returns("delivered"));
    assert s3.pending == map[0 := Pending(Slot(0, "key"), row, true, false)];
  }

  function MailHistory(): seq<Step> {
    [AddAgent(0), CreateRun(0, {MAIL}), InvokeStep(0, CallOf(MAIL, "key"), true, Returns("sent"), true), Approve(0)]
  }

  /** The approval comes after the denial: another key would send the email, the denied one never will. */
  lemma DeniedKeyStaysDenied()
    ensures var s := Run(Initial(OFFICE), MailHistory());
            && 0 in s.approved && 1 !in s.pending
            && FirstFailure(s, 1, CallOf(MAIL, "other"), true).None?
            && Invoke(s, 1, CallOf(MAIL, "key"), true, Returns("sent"), true) == (s, Refused(ToolDenied))
  {
    var h := MailHistory();
    RunFour(Initial(OFFICE), h[0], h[1], h[2], h[3]);
    assert h == [h[0], h[1], h[2], h[3]];
    var s2 := Next(Next(Initial(OFFICE), h[0]), h[1]);
    assert FirstFailure(s2, 0, CallOf(MAIL, "key"), true) == Some(ApprovalRequired);
  }

  // ----- The approval gate on email -----

  predicate SameTerms(catalog: map<Definition, Terms>, s: State) {
    && s.catalog.Keys == catalog.Keys
    && forall d :: d in catalog ==> s.catalog[d].approvalRequired == catalog[d].approvalRequired
  }

  lemma NextKeepsTerms(catalog: map<Definition, Terms>, s: State, step: Step)
    requires SameTerms(catalog, s)
    ensures SameTerms(catalog, Next(s, step))
  {
    if !step.SetEnabled? {
      assert Next(s, step).catalog == s.catalog;
    }
  }

  lemma {:induction false} TermsAreKept(catalog: map<Definition, Terms>, s: State, schedule: seq<Step>)
    requires SameTerms(catalog, s)
    ensures SameTerms(catalog, Run(s, schedule))
    decreases |schedule|
  {
    if schedule != [] {
      NextKeepsTerms(catalog, s, schedule[0]);
      TermsAreKept(catalog, Next(s, schedule[0]), schedule[1..]);
    }
  }

  predicate EveryEmailApproved(s: State) {
    forall slot :: slot in s.emails ==> slot.run in s.approved
  }

  predicate Governed(catalog: map<Definition, Terms>) {
    forall d :: d in catalog && d.name == EMAIL ==> catalog[d].approvalRequired
  }

  lemma GovernedEmailsAreApproved(catalog: map<Definition, Terms>, schedule: seq<Step>)
    requires Governed(catalog)
    ensures EveryEmailApproved(Run(Initial(catalog), schedule))
  {
    RunKeepsInv(Initial(catalog), schedule);
    TermsAreKept(catalog, Initial(catalog), schedule);
  }

  /** How an email definition that needs no approval sends an unapproved email. */
  function UngovernedSchedule(d: Definition): seq<Step> {
    [SetEnabled(d, true), AddAgent(0), CreateRun(0, {d}),
     InvokeStep(0, Call(Slot(0, "key"), 0, d, "mail"), true, Returns("sent"), true), CommitStep(0)]
  }

  lemma UngovernedEmailEscapes(catalog: map<Definition, Terms>, d: Definition)
    requires d in catalog && d.name == EMAIL && !catalog[d].approvalRequired
    ensures !EveryEmailApproved(Run(Initial(catalog), UngovernedSchedule(d)))
  {
    var steps := UngovernedSchedule(d);
    var s1 := Next(Initial(catalog), steps[0]);
    var s2 := Next(s1, steps[1]);
    var s3 := Next(s2, steps[2]);
    var s4 := Next(s3, steps[3]);
    assert Run(s4, steps[4..]) == Next(s4, steps[4]);
    assert Run(s3, steps[3..]) == Run(s4, steps[3..][1..]);
    assert Run(s2, steps[2..]) == Run(s3, steps[2..][1..]);
    assert Run(s1, steps[1..]) == Run(s2, steps[1..][1..]);
    assert Slot(0, "key") in Next(s4, steps[4]).emails;
  }

  /** No history sends an email for an unapproved run exactly when every email definition is governed. */
  lemma EmailGateIsExact(catalog: map<Definition, Terms>)
    ensures (forall schedule :: EveryEmailApproved(Run(Initial(catalog), schedule))) <==> Governed(catalog)
  {
    if Governed(catalog) {
      forall schedule ensures EveryEmailApproved(Run(Initial(catalog), schedule)) {
        GovernedEmailsAreApproved(catalog, schedule);
      }
    } else {
      var d :| d in catalog && d.name == EMAIL && !catalog[d].approvalRequired;
      UngovernedEmailEscapes(catalog, d);
    }
  }

  /** Inside the transaction that approves the run its email passes the gate, and both become visible at once. */
  lemma OwnApprovalOpensTheGate(s: State, p: nat, call: Call, handled: Handled, audited: bool)
    requires p in s.deciding && s.deciding[p] == call.slot.run && p !in s.pending
    requires call.requested.name == EMAIL && Permitted(s, call) && handled.Returns?
    requires call.slot !in s.invocations && !SlotPending(s, call.slot)
    requires !BindingPending(s, call.slot, call.requested)
    requires BindingKey(call.slot, call.requested) in s.bindings ==>
               s.bindings[BindingKey(call.slot, call.requested)] == call.requested
    ensures var (t, reply) := Invoke(s, p, call, true, handled, audited);
            && reply == Result(handled.result)
            && t.emails == s.emails && t.approved == s.approved
            && call.slot in Commit(t, p).emails && call.slot.run in Commit(t, p).approved
            && Rollback(t, p).emails == s.emails && Rollback(t, p).approved == s.approved
  {
    assert FirstFailure(s, p, call, true).None?;
  }
}
