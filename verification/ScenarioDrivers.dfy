/**
 Reviewed scenario drivers: the validators that admit a list of approval attempts, and the
 evaluator that sends the list to a running workflow in two passes.
 */
module ScenarioDrivers {
  import opened Base
  import opened VendorTables
  import opened VendorOnboarding

  datatype Timing = BeforeRequest | WhileWaiting | AfterDecision
  datatype Actor = Authorized | Unauthorized
  datatype VersionMode = CurrentVersion | StaleVersionMode
  datatype KeyMode = NewKey | ReusePrevious
  datatype Effect =
    | Accepted | Idempotent | RejectedEarly | RejectedStale
    | RejectedConflict | RejectedKeyConflict | Forbidden

  datatype ApprovalAttempt = ApprovalAttempt(
    timing: Timing, verdict: Verdict, actor: Actor, version: VersionMode, key: KeyMode, effect: Effect)

  datatype CancellationPoint = NoCancellation | BeforeApproval | WaitingCancellation

  datatype Driver = Driver(
    finalDecision: Option<Verdict>, cancellation: CancellationPoint, attempts: seq<ApprovalAttempt>)

  /** ApprovalAttempt.validate_attempt: the combinations that one attempt may declare. */
  predicate ValidAttempt(a: ApprovalAttempt) {
    && (if a.effect.Forbidden? then a.actor.Unauthorized? && a.key.NewKey? else a.actor.Authorized?)
    && (a.effect.Accepted? ==> a.timing.WhileWaiting? && a.version.CurrentVersion? && a.key.NewKey?)
    && (a.effect.RejectedEarly? ==> a.timing.BeforeRequest? && a.version.CurrentVersion? && a.key.NewKey?)
    && (a.effect.RejectedStale? ==> a.timing.WhileWaiting? && a.version.StaleVersionMode? && a.key.NewKey?)
    && (a.effect in {Idempotent, RejectedKeyConflict} ==>
          a.timing.AfterDecision? && a.key.ReusePrevious? && a.version.CurrentVersion?)
    && (a.effect.RejectedConflict? ==> a.timing.AfterDecision? && a.key.NewKey? && a.version.CurrentVersion?)
  }

  /** What each expected effect fixes of its attempt; a forbidden one is free in timing and version. */
  lemma EffectFixesAttempt(a: ApprovalAttempt)
    ensures ValidAttempt(a) <==>
            match a.effect
            case Accepted => a == ApprovalAttempt(WhileWaiting, a.verdict, Authorized, CurrentVersion, NewKey, Accepted)
            case RejectedEarly =>
              a == ApprovalAttempt(BeforeRequest, a.verdict, Authorized, CurrentVersion, NewKey, RejectedEarly)
            case RejectedStale =>
              a == ApprovalAttempt(WhileWaiting, a.verdict, Authorized, StaleVersionMode, NewKey, RejectedStale)
            case RejectedConflict =>
              a == ApprovalAttempt(AfterDecision, a.verdict, Authorized, CurrentVersion, NewKey, RejectedConflict)
            case Idempotent =>
              a == ApprovalAttempt(AfterDecision, a.verdict, Authorized, CurrentVersion, ReusePrevious, Idempotent)
            case RejectedKeyConflict =>
              a == ApprovalAttempt(AfterDecision, a.verdict, Authorized, CurrentVersion, ReusePrevious,
                                   RejectedKeyConflict)
            case Forbidden => a.actor == Unauthorized && a.key == NewKey
  {
  }

  function AcceptedIndices(attempts: seq<ApprovalAttempt>): (r: seq<nat>)
    ensures forall k :: 0 <= k < |r| ==> r[k] < |attempts| && attempts[r[k]].effect.Accepted?
    ensures forall i :: 0 <= i < |attempts| && attempts[i].effect.Accepted? ==> i in r
  {
    if attempts == [] then []
    else
      var n := |attempts| - 1;
      AcceptedIndices(attempts[..n]) + if attempts[n].effect.Accepted? then [n] else []
  }

  function AcceptedIndex(attempts: seq<ApprovalAttempt>): Option<nat> {
    if AcceptedIndices(attempts) == [] then None else Some(AcceptedIndices(attempts)[0])
  }

  predicate PostDecision(e: Effect) {
    e in {Idempotent, RejectedConflict, RejectedKeyConflict}
  }

  /** The body of validate_terminal_driver's loop, for one index. */
  predicate ValidAt(attempts: seq<ApprovalAttempt>, accepted: Option<nat>, index: nat)
    requires index < |attempts| && (accepted.Some? ==> accepted.value < |attempts|)
  {
    var a := attempts[index];
    && !(a.key.ReusePrevious? && index == 0)
    && (PostDecision(a.effect) ==> accepted.Some? && index > accepted.value)
    && (accepted.Some? && index > accepted.value ==> PostDecision(a.effect))
    && (a.effect.Idempotent? ==>
          && accepted.Some? && a.verdict == attempts[accepted.value].verdict
          && index > 0 && attempts[index - 1].effect.Accepted?)
    && (a.effect in {RejectedConflict, RejectedKeyConflict} ==>
          && accepted.Some? && a.verdict != attempts[accepted.value].verdict
          && (a.effect.RejectedKeyConflict? ==> index > 0 && attempts[index - 1].effect.Accepted?))
  }

  predicate ValidDriver(d: Driver) {
    && (forall i :: 0 <= i < |d.attempts| ==> ValidAttempt(d.attempts[i]))
    && !(d.cancellation != NoCancellation && d.finalDecision.Some?)
    && (if d.finalDecision.None? then AcceptedIndices(d.attempts) == []
        else && |AcceptedIndices(d.attempts)| == 1
             && d.attempts[AcceptedIndices(d.attempts)[0]].verdict == d.finalDecision.value)
    && (forall i :: 0 <= i < |d.attempts| ==> ValidAt(d.attempts, AcceptedIndex(d.attempts), i))
  }

  /** Probes that can stand before a decision, or in a case without one. */
  predicate Undeciding(e: Effect) {
    e in {RejectedEarly, RejectedStale, Forbidden}
  }

  /** Attempt j follows the accepted attempt k: only the next one replays its key, and a repetition agrees with it. */
  predicate Follows(attempts: seq<ApprovalAttempt>, k: nat, j: nat)
    requires k < j < |attempts|
  {
    var a, verdict := attempts[j], attempts[k].verdict;
    match a.effect
    case Idempotent => a.verdict == verdict && j == k + 1
    case RejectedKeyConflict => a.verdict != verdict && j == k + 1
    case RejectedConflict => a.verdict != verdict
    case _ => false
  }

  /** Attempt k is accepted, nothing before it decides, and everything after it follows it. */
  predicate Shaped(attempts: seq<ApprovalAttempt>, k: nat) {
    && k < |attempts| && attempts[k].effect.Accepted?
    && (forall i :: 0 <= i < k ==> Undeciding(attempts[i].effect))
    && (forall j :: k < j < |attempts| ==> Follows(attempts, k, j))
  }

  lemma {:induction false} NoAcceptedIndices(attempts: seq<ApprovalAttempt>)
    requires forall i :: 0 <= i < |attempts| ==> !attempts[i].effect.Accepted?
    ensures AcceptedIndices(attempts) == []
    decreases |attempts|
  {
    if attempts != [] {
      NoAcceptedIndices(attempts[..|attempts| - 1]);
    }
  }

  lemma {:induction false} OneAcceptedIndex(attempts: seq<ApprovalAttempt>, k: nat)
    requires k < |attempts| && attempts[k].effect.Accepted?
    requires forall i :: 0 <= i < |attempts| && i != k ==> !attempts[i].effect.Accepted?
    ensures AcceptedIndices(attempts) == [k]
    decreases |attempts|
  {
    if k == |attempts| - 1 {
      NoAcceptedIndices(attempts[..|attempts| - 1]);
    } else {
      OneAcceptedIndex(attempts[..|attempts| - 1], k);
    }
  }

  /** The loop's checks at an index, once it is known which attempt, if any, is the accepted one. */
  lemma ValidAtIff(attempts: seq<ApprovalAttempt>, accepted: Option<nat>, i: nat)
    requires i < |attempts| && ValidAttempt(attempts[i])
    requires accepted.Some? ==> accepted.value < |attempts| && attempts[accepted.value].effect.Accepted?
    requires attempts[i].effect.Accepted? <==> accepted == Some(i)
    requires forall j :: 0 <= j < |attempts| && attempts[j].effect.Accepted? ==> accepted == Some(j)
    ensures ValidAt(attempts, accepted, i) <==>
            if accepted.None? || i < accepted.value then Undeciding(attempts[i].effect)
            else i == accepted.value || Follows(attempts, accepted.value, i)
  {
    EffectFixesAttempt(attempts[i]);
  }

  /** Either no attempt decides, or one accepted attempt does and the others stand around it. */
  ghost predicate HasShape(d: Driver) {
    match d.finalDecision
    case None => forall i :: 0 <= i < |d.attempts| ==> Undeciding(d.attempts[i].effect)
    case Some(verdict) =>
      && d.cancellation == NoCancellation
      && exists k: nat :: k < |d.attempts| && Shaped(d.attempts, k) && d.attempts[k].verdict == verdict
  }

  lemma ShapeOfValid(d: Driver)
    requires ValidDriver(d)
    ensures HasShape(d)
  {
    var attempts, accepted := d.attempts, AcceptedIndex(d.attempts);
    forall i | 0 <= i < |attempts|
      ensures if accepted.None? || i < accepted.value then Undeciding(attempts[i].effect)
              else i == accepted.value || Follows(attempts, accepted.value, i)
    {
      assert ValidAt(attempts, accepted, i);
      ValidAtIff(attempts, accepted, i);
    }
    if d.finalDecision.Some? {
      assert Shaped(attempts, accepted.value);
    }
  }

  lemma ValidOfShape(d: Driver)
    requires HasShape(d) && forall i :: 0 <= i < |d.attempts| ==> ValidAttempt(d.attempts[i])
    ensures ValidDriver(d)
  {
    var attempts := d.attempts;
    var accepted: Option<nat> := None;
    if d.finalDecision.None? {
      NoAcceptedIndices(attempts);
    } else {
      var k: nat :| k < |attempts| && Shaped(attempts, k) && attempts[k].verdict == d.finalDecision.value;
      forall i | 0 <= i < |attempts| && i != k ensures !attempts[i].effect.Accepted? {
        assert if i < k then Undeciding(attempts[i].effect) else Follows(attempts, k, i);
      }
      OneAcceptedIndex(attempts, k);
      accepted := Some(k);
    }
    forall i | 0 <= i < |attempts| ensures ValidAt(attempts, accepted, i) {
      ValidAtIff(attempts, accepted, i);
    }
  }

  /** The validators admit exactly the drivers of this shape whose attempts are each fixed by their effect. */
  lemma DriverShape(d: Driver)
    ensures ValidDriver(d) <==>
            HasShape(d) && forall i :: 0 <= i < |d.attempts| ==> ValidAttempt(d.attempts[i])
  {
    if ValidDriver(d) {
      ShapeOfValid(d);
    } else if HasShape(d) && forall i :: 0 <= i < |d.attempts| ==> ValidAttempt(d.attempts[i]) {
      ValidOfShape(d);
    }
  }

  // ----- The evaluator -----

  /** What the evaluator knows about the case that it drives; update keys by index, early ones apart. */
  datatype Case = Case(
    requestId: Uuid, principal: Uuid, keys: nat -> string, earlyKeys: nat -> string, probes: nat -> Uuid,
    expectsFailure: bool)

  /** Probe identifiers are freshly drawn, and every attempt has a key of its own. */
  ghost predicate FreshCase(c: Case) {
    && (forall i :: c.probes(i) != c.requestId)
    && (forall i, j :: i != j ==> c.keys(i) != c.keys(j))
  }

  /** The workflow is at some point of its run on this case and was not cancelled. */
  ghost predicate Underway(w: Workflow, c: Case) {
    && w.requestId in {None, Some(c.requestId)}
    && (w.requestId.None? <==> w.version.None?)
    && w.version in {None, Some(1)}
    && !w.cancelled
  }

  /** Between two updates the workflow may run its own steps for as long as it likes. */
  method LetWorkflowRun(wf: VendorOnboardingWorkflow, c: Case)
    requires Underway(wf.Fields(), c)
    modifies wf
    ensures Underway(wf.Fields(), c) && wf.decision == old(wf.decision)
  {
    wf.phase := *;
    wf.awaiting := *;
    var visible: bool := *;
    wf.approvalRequestId := if visible then Some(c.requestId) else None;
    wf.approvalVersion := if visible then Some(1) else None;
  }

  datatype DriveOutcome = Finished | TimedOut | EarlyProbeAccepted | NoKeyToReplay

  /**
   An update under an identifier. Temporal answers an identifier that it has completed before from
   the first outcome, without the validator or the handler; a refused one leaves nothing to repeat.
   */
  method ExecuteUpdate(wf: VendorOnboardingWorkflow, answered: set<string>, d: Decision)
    returns (acknowledged: bool, remembered: set<string>)
    modifies wf
    ensures d.key in answered ==> acknowledged && remembered == answered && wf.Fields() == old(wf.Fields())
    ensures d.key !in answered ==>
              && acknowledged == Accepts(old(wf.Fields()), d) && wf.Fields() == Decide(old(wf.Fields()), d)
              && remembered == if acknowledged then answered + {d.key} else answered
  {
    if d.key in answered {
      return true, answered;
    }
    acknowledged := wf.HandleUpdate(d);
    remembered := if acknowledged then answered + {d.key} else answered;
  }

  /** First pass: early probes carry a request identifier that is not the case's. */
  method DriveEarlyAttempts(d: Driver, wf: VendorOnboardingWorkflow, c: Case) returns (outcome: DriveOutcome)
    requires FreshCase(c) && ValidDriver(d) && Underway(wf.Fields(), c) && wf.decision.None?
    modifies wf
    ensures outcome == Finished && Underway(wf.Fields(), c) && wf.decision.None?
  {
    var answered: set<string> := {};
    for index := 0 to |d.attempts|
      invariant Underway(wf.Fields(), c) && wf.decision.None? && answered == {}
    {
      if d.attempts[index].timing.BeforeRequest? {
        LetWorkflowRun(wf, c);
        var probe := Decision(c.probes(index), 1, d.attempts[index].verdict, c.principal, "early probe",
                              c.earlyKeys(index));
        var acknowledged;
        acknowledged, answered := ExecuteUpdate(wf, answered, probe);
        if acknowledged {
          return EarlyProbeAccepted;
        }
      }
    }
    return Finished;
  }

  predicate NotSent(decision: Option<Decision>, answered: set<string>) {
    decision == None && answered == {}
  }

  predicate Sent(decision: Option<Decision>, answered: set<string>, payload: Decision) {
    decision == Some(payload) && answered == {payload.key}
  }

  /**
   A reviewed accepted update is retried under its identifier until it is acknowledged or the
   deadline passes; an acknowledgement can be lost, and then a retry is answered from the outcome.
   */
  method SendAccepted(wf: VendorOnboardingWorkflow, c: Case, payload: Decision, polls: nat)
    returns (acknowledged: bool, answered: set<string>)
    requires Underway(wf.Fields(), c) && wf.decision.None?
    modifies wf
    ensures Underway(wf.Fields(), c)
    ensures NotSent(wf.decision, answered) || Sent(wf.decision, answered, payload)
    ensures acknowledged ==> wf.decision.Some?
  {
    answered := {};
    for i := 0 to polls
      invariant Underway(wf.Fields(), c)
      invariant NotSent(wf.decision, answered) || Sent(wf.decision, answered, payload)
    {
      LetWorkflowRun(wf, c);
      acknowledged, answered := ExecuteUpdate(wf, answered, payload);
      var heard: bool := *;
      if acknowledged && heard {
        return;
      }
    }
    acknowledged := false;
  }

  ghost predicate AcceptedBefore(d: Driver, index: nat) {
    AcceptedIndex(d.attempts).Some? && AcceptedIndex(d.attempts).value < index
  }

  /** The update that the accepted attempt sends. */
  function AcceptedPayload(d: Driver, c: Case): Decision
    requires ValidDriver(d) && d.finalDecision.Some?
  {
    var i := AcceptedIndices(d.attempts)[0];
    Decision(c.requestId, 1, d.attempts[i].verdict, c.principal, "reviewed", c.keys(i))
  }

  /** The update of the attempt at this index, once its key is chosen. */
  function Payload(d: Driver, c: Case, index: nat, key: string): Decision
    requires index < |d.attempts|
  {
    var a := d.attempts[index];
    Decision(c.requestId, if a.version.CurrentVersion? then 1 else 0, a.verdict, c.principal, "reviewed", key)
  }

  /** Sent in its place in the list, an attempt that is not the accepted one can only repeat the decision. */
  lemma OthersOnlyRepeat(d: Driver, c: Case, index: nat, w: Workflow, key: string)
    requires ValidDriver(d) && index < |d.attempts| && Underway(w, c)
    requires var a := d.attempts[index];
             && !a.effect.Accepted? && !a.timing.BeforeRequest? && a.actor.Authorized?
             && (a.key.ReusePrevious? && AcceptedBefore(d, index) ==> key == AcceptedPayload(d, c).key)
    requires w.decision == if AcceptedBefore(d, index) then Some(AcceptedPayload(d, c)) else None
    ensures Accepts(w, Payload(d, c, index, key)) ==>
              && d.attempts[index].effect.Idempotent? && AcceptedBefore(d, index)
              && Payload(d, c, index, key) == AcceptedPayload(d, c)
  {
    assert ValidAttempt(d.attempts[index]) && ValidAt(d.attempts, AcceptedIndex(d.attempts), index);
  }

  /** With a key of its own it is refused, whatever the workflow's phase. */
  lemma OthersAreRefused(d: Driver, c: Case, index: nat, w: Workflow)
    requires ValidDriver(d) && index < |d.attempts| && Underway(w, c)
    requires var a := d.attempts[index];
             !a.effect.Accepted? && !a.timing.BeforeRequest? && a.actor.Authorized? && a.key.NewKey?
    requires w.decision == if AcceptedBefore(d, index) then Some(AcceptedPayload(d, c)) else None
    ensures !Accepts(w, Payload(d, c, index, c.keys(index)))
  {
    OthersOnlyRepeat(d, c, index, w, c.keys(index));
    assert ValidAttempt(d.attempts[index]);
  }

  /** The attempt marked accepted is the one at AcceptedIndex, and nothing was accepted before it. */
  lemma AcceptedAttemptIsUnique(d: Driver, index: nat)
    requires ValidDriver(d) && index < |d.attempts|
    ensures d.attempts[index].effect.Accepted? <==> AcceptedIndex(d.attempts) == Some(index)
    ensures !AcceptedBefore(d, 0)
    ensures AcceptedBefore(d, index + 1) <==> AcceptedBefore(d, index) || d.attempts[index].effect.Accepted?
    ensures d.attempts[index].effect.Accepted? ==>
              && !AcceptedBefore(d, index) && d.finalDecision.Some?
              && ValidAttempt(d.attempts[index])
    ensures && d.attempts[index].key.ReusePrevious? && d.attempts[index].actor.Authorized?
            && !d.attempts[index].timing.BeforeRequest?
            ==> AcceptedBefore(d, index)
  {
    assert ValidAttempt(d.attempts[index]) && ValidAt(d.attempts, AcceptedIndex(d.attempts), index);
  }

  /** What the second pass knows before the attempt at this index. */
  ghost predicate Reached(
    w: Workflow, d: Driver, c: Case, index: nat, acceptedKey: Option<string>, answered: set<string>)
    requires ValidDriver(d)
  {
    && Underway(w, c)
    && (AcceptedBefore(d, index) ==> d.finalDecision.Some?)
    && if AcceptedBefore(d, index) then
         var payload := AcceptedPayload(d, c);
         w.decision == Some(payload) && acceptedKey == Some(payload.key) && answered == {payload.key}
       else w.decision == None && acceptedKey == None && answered == {}
  }

  /** A probe that reuses the accepted key: Temporal acknowledges it from the first outcome. */
  predicate Replays(a: ApprovalAttempt) {
    a.effect.Idempotent? || a.effect.RejectedKeyConflict?
  }

  /** The acknowledged attempts before this index: first the one marked accepted, then only replays of its key. */
  ghost predicate LogOk(d: Driver, log: seq<nat>, index: nat) {
    && (log != [] <==> AcceptedBefore(d, index))
    && (log != [] ==> Some(log[0]) == AcceptedIndex(d.attempts))
    && forall k :: 0 < k < |log| ==> log[k] < |d.attempts| && Replays(d.attempts[log[k]])
  }

  predicate Acknowledgeable(e: Effect) {
    e in {Accepted, Idempotent, RejectedKeyConflict}
  }

  /** Exactly the accepted attempt and the replays before this index are listed. */
  ghost predicate Lists(attempts: seq<ApprovalAttempt>, log: seq<nat>, index: nat) {
    && (forall k :: 0 <= k < |log| ==> log[k] < index)
    && forall i :: 0 <= i < index && i < |attempts| ==> (i in log <==> Acknowledgeable(attempts[i].effect))
  }

  lemma ListsOneMore(attempts: seq<ApprovalAttempt>, log: seq<nat>, index: nat, acknowledged: bool)
    requires index < |attempts| && Lists(attempts, log, index)
    requires acknowledged <==> Acknowledgeable(attempts[index].effect)
    ensures Lists(attempts, if acknowledged then log + [index] else log, index + 1)
  {
    assert index !in log;
  }

  /** One turn of the second pass. */
  method DriveAttempt(
    d: Driver, wf: VendorOnboardingWorkflow, c: Case, polls: nat, index: nat,
    key0: Option<string>, answered0: set<string>)
    returns (outcome: DriveOutcome, acceptedKey: Option<string>, answered: set<string>, acknowledged: bool)
    requires FreshCase(c) && ValidDriver(d) && index < |d.attempts|
    requires Reached(wf.Fields(), d, c, index, key0, answered0)
    modifies wf
    ensures outcome in {Finished, TimedOut}
    ensures outcome.Finished? ==> Reached(wf.Fields(), d, c, index + 1, acceptedKey, answered)
    ensures outcome.TimedOut? ==>
              && !acknowledged && d.finalDecision.Some? && !AcceptedBefore(d, index)
              && wf.decision in {None, Some(AcceptedPayload(d, c))}
    ensures acknowledged ==>
              d.attempts[index].effect.Accepted? || (Replays(d.attempts[index]) && AcceptedBefore(d, index))
    ensures outcome.Finished? ==>
              (acknowledged <==> Acknowledgeable(d.attempts[index].effect))
  {
    var a := d.attempts[index];
    outcome, acceptedKey, answered, acknowledged := Finished, key0, answered0, false;
    AcceptedAttemptIsUnique(d, index);
    EffectFixesAttempt(a);
    if a.timing.BeforeRequest? || a.actor.Unauthorized? {
      return;
    }
    var key := if a.key.ReusePrevious? then acceptedKey else Some(c.keys(index));
    if key.None? {
      outcome := NoKeyToReplay;
      return;
    }
    var payload := Payload(d, c, index, key.value);
    if a.effect.Accepted? {
      acknowledged, answered := SendAccepted(wf, c, payload, polls);
      if acknowledged {
        acceptedKey := Some(payload.key);
      } else {
        outcome := TimedOut;
      }
    } else {
      LetWorkflowRun(wf, c);
      if a.key.NewKey? {
        OthersAreRefused(d, c, index, wf.Fields());
      }
      acknowledged, answered := ExecuteUpdate(wf, answered, payload);
    }
  }

  /**
   Both passes. `log` lists the attempts that were acknowledged, in order. Whatever the workflow
   does in between and whichever acknowledgements are lost, the first acknowledged one is the attempt
   marked accepted, each later one replays its key, no other attempt moves the decision, and the run
   ends with the declared decision unless the deadline passed. A case that expects a failed run sends
   nothing.
   */
  method DriveCase(d: Driver, wf: VendorOnboardingWorkflow, c: Case, polls: nat)
    returns (outcome: DriveOutcome, log: seq<nat>)
    requires FreshCase(c) && ValidDriver(d) && Underway(wf.Fields(), c) && wf.decision.None?
    modifies wf
    ensures outcome in {Finished, TimedOut}
    ensures log != [] ==> Some(log[0]) == AcceptedIndex(d.attempts)
    ensures forall k :: 0 < k < |log| ==> log[k] < |d.attempts| && Replays(d.attempts[log[k]])
    ensures log != [] ==> wf.decision.Some?
    ensures outcome.Finished? && d.cancellation.NoCancellation? && !c.expectsFailure ==>
              Lists(d.attempts, log, |d.attempts|)
    ensures outcome.Finished? && wf.decision.Some? ==> log != []
    ensures wf.decision.Some? ==> d.finalDecision.Some? && wf.decision == Some(AcceptedPayload(d, c))
    ensures wf.decision.Some? ==> wf.decision.value.verdict == d.finalDecision.value
    ensures c.expectsFailure ==> wf.Fields() == old(wf.Fields())
    ensures d.cancellation != NoCancellation && !c.expectsFailure ==>
              outcome.Finished? && log == [] && wf.decision == None && (wf.cancelled || Closed(wf.Fields()))
    ensures outcome.Finished? && d.cancellation.NoCancellation? && !c.expectsFailure ==>
              wf.decision == if d.finalDecision.Some? then Some(AcceptedPayload(d, c)) else None
  {
    log := [];
    if c.expectsFailure {
      return Finished, log;
    }
    outcome := DriveEarlyAttempts(d, wf, c);
    if outcome != Finished {
      return;
    }
    if d.cancellation != NoCancellation {
      LetWorkflowRun(wf, c);
      wf.HandleCancel();
      return;
    }
    outcome, log := DriveReviewed(d, wf, c, polls);
  }

  /** The second pass. */
  method DriveReviewed(d: Driver, wf: VendorOnboardingWorkflow, c: Case, polls: nat)
    returns (outcome: DriveOutcome, log: seq<nat>)
    requires FreshCase(c) && ValidDriver(d) && Underway(wf.Fields(), c) && wf.decision.None?
    modifies wf
    ensures outcome in {Finished, TimedOut}
    ensures log != [] ==> Some(log[0]) == AcceptedIndex(d.attempts) && wf.decision.Some?
    ensures forall k :: 0 < k < |log| ==> log[k] < |d.attempts| && Replays(d.attempts[log[k]])
    ensures wf.decision.Some? ==> d.finalDecision.Some? && wf.decision == Some(AcceptedPayload(d, c))
    ensures outcome.Finished? ==> Lists(d.attempts, log, |d.attempts|) && (wf.decision.Some? <==> log != [])
    ensures outcome.Finished? ==>
              wf.decision == if d.finalDecision.Some? then Some(AcceptedPayload(d, c)) else None
  {
    log, outcome := [], Finished;
    var acceptedKey: Option<string>, answered: set<string> := None, {};
    for index := 0 to |d.attempts|
      invariant outcome.Finished? && Reached(wf.Fields(), d, c, index, acceptedKey, answered)
      invariant LogOk(d, log, index) && Lists(d.attempts, log, index)
    {
      AcceptedAttemptIsUnique(d, index);
      var acknowledged;
      outcome, acceptedKey, answered, acknowledged := DriveAttempt(d, wf, c, polls, index, acceptedKey, answered);
      if outcome.TimedOut? {
        return;
      }
      ListsOneMore(d.attempts, log, index, acknowledged);
      if acknowledged {
        log := log + [index];
      }
    }
  }
}
