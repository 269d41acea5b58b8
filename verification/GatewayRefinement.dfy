/**
 The two places that see only the outcome of a gateway call, the managed run's budget and the vendor
 activities, each keep a smaller picture of the invocation rows. A gateway call moves both pictures
 as they say.
 */
module GatewayRefinement {
  import opened Base
  import opened ToolGateway
  import Budget = RuntimeState
  import Vendor = VendorTables

  // ----- A managed run: a call that raises rolls its transaction back -----

  /** The rows of one run, by key and success. */
  ghost predicate Pictures(rows: seq<Budget.InvocationRow>, s: State, run: Uuid) {
    forall key :: PicturesKey(rows, s, run, key)
  }

  predicate PicturesKey(rows: seq<Budget.InvocationRow>, s: State, run: Uuid, key: string) {
    var i := Budget.Find(rows, key);
    && (i >= 0 <==> Slot(run, key) in s.invocations)
    && (i >= 0 ==> rows[i].succeeded == s.invocations[Slot(run, key)].status.Succeeded?)
  }

  function Settled(s: State, p: nat, reply: Reply): State {
    if reply.Result? then Commit(s, p) else Rollback(s, p)
  }

  /** What the first call under a key amounted to, judged by its reply and by what survived it. */
  function FirstOf(after: State, slot: Slot, reply: Reply): Budget.FirstCall {
    if reply.Result? then Budget.Succeeds
    else if slot in after.invocations then Budget.RefusedAndAudited
    else Budget.Raises
  }

  lemma {:induction false} FindInAppended(rows: seq<Budget.InvocationRow>, row: Budget.InvocationRow, key: string)
    ensures Budget.Find(rows + [row], key) ==
              if Budget.Find(rows, key) >= 0 then Budget.Find(rows, key)
              else if row.key == key then |rows| else -1
    decreases |rows|
  {
    if rows != [] {
      assert (rows + [row])[1..] == rows[1..] + [row];
      FindInAppended(rows[1..], row, key);
    }
  }

  predicate SameRow(s: State, u: State, slot: Slot) {
    && (slot in u.invocations <==> slot in s.invocations)
    && (slot in s.invocations ==> u.invocations[slot] == s.invocations[slot])
  }

  /** What a settled call leaves: the rows before it, and at most one more, under its own key. */
  ghost predicate OneRow(s: State, u: State, own: Slot, answered: bool) {
    && (forall slot :: slot != own ==> SameRow(s, u, slot))
    && (own in s.invocations ==> SameRow(s, u, own))
    && (own in u.invocations && own !in s.invocations ==> (u.invocations[own].status.Succeeded? <==> answered))
    && (answered ==> own in u.invocations)
  }

  lemma AttemptSettled(s: State, p: nat, call: Call, category: Category, audited: bool)
    requires p !in s.pending && call.slot !in s.invocations && !category.NoError?
    ensures OneRow(s, Rollback(Attempt(s, p, call, category, audited), p), call.slot, false)
  {
  }

  lemma ExecuteSettled(s: State, p: nat, call: Call, handled: Handled)
    requires p !in s.pending && call.slot !in s.invocations
    ensures handled.Returns? ==> OneRow(s, Commit(Execute(s, p, call, handled), p), call.slot, true)
    ensures !handled.Returns? ==> OneRow(s, Rollback(Execute(s, p, call, handled), p), call.slot, false)
  {
    if handled.Returns? {
      var t := Execute(s, p, call, handled);
      assert Commit(t, p).invocations == s.invocations[call.slot := HandledRow(call, handled)];
    }
  }

  lemma SettledRows(s: State, p: nat, call: Call, valid: bool, handled: Handled, audited: bool)
    requires p !in s.pending
    ensures var (t, reply) := Invoke(s, p, call, valid, handled, audited);
            OneRow(s, Settled(t, p, reply), call.slot, reply.Result?)
  {
    var (t, reply) := Invoke(s, p, call, valid, handled, audited);
    if t == s {
      assert Settled(t, p, reply).invocations == s.invocations;
    } else {
      var failure := FirstFailure(s, p, call, valid);
      if failure.Some? {
        AttemptSettled(s, p, call, failure.value, audited);
      } else {
        ExecuteSettled(s, p, call, handled);
      }
    }
  }

  /** A settled call does to the run's rows, and answers, what the budget model takes it to do. */
  lemma SettledCallIsInvoked(
      rows: seq<Budget.InvocationRow>, s: State, p: nat, call: Call, valid: bool, handled: Handled, audited: bool)
    requires Pictures(rows, s, call.slot.run) && p !in s.pending && call.requested in s.catalog
    requires call.slot in s.invocations ==> s.invocations[call.slot].arguments == call.arguments
    ensures var (t, reply) := Invoke(s, p, call, valid, handled, audited);
            var u := Settled(t, p, reply);
            var (after, ok) := Budget.Invoked(rows, call.slot.key, FirstOf(u, call.slot, reply));
            ok == reply.Result? && Pictures(after, u, call.slot.run)
  {
    var run, own := call.slot.run, call.slot.key;
    var (t, reply) := Invoke(s, p, call, valid, handled, audited);
    var u := Settled(t, p, reply);
    var (after, ok) := Budget.Invoked(rows, own, FirstOf(u, call.slot, reply));
    SettledRows(s, p, call, valid, handled, audited);
    assert PicturesKey(rows, s, run, own) && call.slot == Slot(run, own);
    forall key ensures PicturesKey(after, u, run, key) {
      assert PicturesKey(rows, s, run, key) && (key != own ==> SameRow(s, u, Slot(run, key)));
      if after != rows {
        FindInAppended(rows, after[|rows|], key);
      }
    }
  }

  // ----- A vendor activity: it catches the failure and commits -----

  /** A stored success may or may not be an answer that the activity can use. */
  function PictureOf(s: State, slot: Slot, usable: string -> bool): Option<Vendor.ToolRow> {
    if slot !in s.invocations then None
    else
      var row := s.invocations[slot];
      Some(if !row.status.Succeeded? then Vendor.NotExecuted
           else if usable(row.result) then Vendor.Usable else Vendor.Unusable)
  }

  /** A committed call leaves the row that the activity's tool call leaves, and fails exactly when that fails. */
  lemma CommittedCallIsCallTool(
      s: State, p: nat, call: Call, valid: bool, handled: Handled, audited: bool,
      usable: string -> bool, env: Vendor.ToolEnv, unusable: string)
    requires p !in s.pending && call.requested in s.catalog && env.fault.NoFault?
    requires call.slot in s.invocations ==> s.invocations[call.slot].arguments == call.arguments
    requires var (t, reply) := Invoke(s, p, call, valid, handled, audited);
             reply != Waiting && Some(env.first) == PictureOf(Commit(t, p), call.slot, usable)
    ensures var (t, reply) := Invoke(s, p, call, valid, handled, audited);
            var (row, failure) := Vendor.CallTool(PictureOf(s, call.slot, usable), env, unusable);
            && row == PictureOf(Commit(t, p), call.slot, usable)
            && (failure.None? <==> reply.Result? && usable(reply.result))
  {
  }

  /** A permanently injected fault records a failure under an unused key and leaves a used one. */
  lemma InjectedFaultIsCallTool(
      s: State, p: nat, call: Call, audited: bool, usable: string -> bool, env: Vendor.ToolEnv, unusable: string)
    requires p !in s.pending && call.requested in s.catalog && env.fault.Permanent?
    requires !SlotPending(s, call.slot)
    ensures Vendor.CallTool(PictureOf(s, call.slot, usable), env, unusable).0
         == PictureOf(Commit(RecordInjectedFailure(s, p, call, audited), p), call.slot, usable)
  {
  }

  /** The approval email is the same call: it raises exactly when the gateway refuses, and inserts one row. */
  lemma EmailCallIsSendEmail(
      s: State, p: nat, call: Call, handled: Handled, audited: bool, t: Vendor.Tables, env: Vendor.EmailEnv)
    requires p !in s.pending && call.requested in s.catalog && call.requested.name == EMAIL
    requires call.slot in s.invocations ==> s.invocations[call.slot].arguments == call.arguments
    requires t.mail == PictureOf(s, call.slot, result => true)
    requires Vendor.APPROVAL_EMAIL in t.emails <==> call.slot in s.emails
    requires var reply := Invoke(s, p, call, true, handled, audited).1;
             reply != Waiting && (call.slot !in s.invocations ==> (env.EmailSent? <==> reply.Result?))
    ensures var (after, reply) := Invoke(s, p, call, true, handled, audited);
            var sent := Vendor.SendEmail(t, env);
            && (sent.Some? <==> reply.Result?)
            && (sent.Some? ==>
                  && sent.value.mail == PictureOf(Commit(after, p), call.slot, result => true)
                  && (Vendor.APPROVAL_EMAIL in sent.value.emails <==> call.slot in Commit(after, p).emails))
  {
  }
}
