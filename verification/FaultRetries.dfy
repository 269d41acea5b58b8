/**
 The vendor activities with their fault points armed: how many triggers an activity survives
 within its three attempts, and that its effects are those of a single undisturbed attempt.
 */
module FaultRetries {
  import opened Base
  import opened RunStates
  import opened VendorTables
  import opened FaultInjection

  const MAXIMUM_ATTEMPTS := 3

  datatype Activity = Begin | Assess | Ask | Record(decision: Decision)

  datatype Ended = Acked | TryAgain | GaveUp

  /** A raise inside a tool call, as the tool call classifies it. */
  function FaultOf(raised: Option<FaultInjection.Failure>): Fault {
    if raised.None? then NoFault
    else if raised.value.retryable then Retryable(raised.value.category)
    else Permanent(raised.value.category)
  }

  function EndedBy(failure: Option<VendorTables.Failure>): Ended {
    if failure.None? then Acked else if failure.value.retryable then TryAgain else GaveUp
  }

  function BeforeTransaction(scope: string): seq<Key> {
    [Key(ActiveActivity, scope), Key(DatabaseOperation, scope)]
  }

  function AfterDecision(scope: string): seq<Key> {
    [Key(ProjectionPostCommitHandoff, scope), Key(EmailPostCommitHandoff, scope)]
  }

  /**
   One attempt. A raise outside the tool call is a plain exception, which Temporal retries. The
   points behind the decision are visited only by the attempt that commits it.
   */
  function Attempt(a: Activity, plans: Plans, scope: string, t: Tables, env: Env): (Plans, Tables, Ended) {
    match a
    case Begin =>
      var (p, raised) := Walk(plans, BeforeTransaction(scope));
      if raised.Some? then (p, t, TryAgain)
      else
        var (q, inside) := Visit(p, Key(FaultPoint.VendorLookup, scope));
        var (rows, failure) := BeginReview(t, env.lookup.(fault := FaultOf(inside)));
        (q, rows, EndedBy(failure))
    case Assess =>
      var (q, inside) := Visit(plans, Key(PolicyRetrieval, scope));
      var (rows, failure) := AssessRisk(t, env.policy.(fault := FaultOf(inside)));
      (if failure.None? then Visit(q, Key(ProviderCall, scope)).0 else q, rows, EndedBy(failure))
    case Ask =>
      var (p, raised) := Visit(plans, Key(WaitingForApproval, scope));
      (p, RequestApproval(t, env.freshId).0, if raised.Some? then TryAgain else Acked)
    case Record(d) =>
      var (rows, error) := RecordDecision(t, d, env.mail);
      if error.Some? then (plans, rows, TryAgain)
      else if FindDecision(t.decisions, d.requestId, d.key) >= 0 then (plans, rows, Acked)
      else
        var (p, raised) := Walk(plans, AfterDecision(scope));
        (p, rows, if raised.Some? then TryAgain else Acked)
  }

  /** Temporal's deliveries, one environment each, until one is acknowledged or refused for good. */
  function Execute(a: Activity, plans: Plans, scope: string, t: Tables, envs: seq<Env>): (Plans, Tables, bool)
    decreases |envs|
  {
    if envs == [] then (plans, t, false)
    else
      var (p, rows, ended) := Attempt(a, plans, scope, t, envs[0]);
      if ended.TryAgain? then Execute(a, p, scope, rows, envs[1..]) else (p, rows, ended.Acked?)
  }

  /** The fault points that can fail the activity. */
  function Points(a: Activity, scope: string): seq<Key> {
    match a
    case Begin => [Key(ActiveActivity, scope), Key(DatabaseOperation, scope), Key(FaultPoint.VendorLookup, scope)]
    case Assess => [Key(PolicyRetrieval, scope)]
    case Ask => [Key(WaitingForApproval, scope)]
    case Record(_) => [Key(ProjectionPostCommitHandoff, scope), Key(EmailPostCommitHandoff, scope)]
  }

  // ----- What an undisturbed attempt does -----

  predicate Healthy(env: Env) {
    env.lookup.first.Usable? && env.policy.first.Usable?
  }

  predicate Reusable(row: Option<ToolRow>) {
    row.None? || row.value.Usable?
  }

  function Undisturbed(a: Activity, t: Tables, env: Env): Tables {
    match a
    case Begin => BeginReview(t, env.lookup.(fault := NoFault)).0
    case Assess => AssessRisk(t, env.policy.(fault := NoFault)).0
    case Ask => RequestApproval(t, env.freshId).0
    case Record(d) => RecordDecision(t, d, env.mail).0
  }

  /** A plan that would raise a permanent failure inside the tool call. */
  predicate NoPermanent(plans: Plans, key: Key) {
    Ready(plans, key) ==> plans[key].action != PermanentException
  }

  predicate Calm(plans: Plans, scope: string) {
    && PlansOk(plans)
    && NoPermanent(plans, Key(FaultPoint.VendorLookup, scope))
    && NoPermanent(plans, Key(PolicyRetrieval, scope))
  }

  /** The rows apart from the audit trail, where a retried tool call leaves its mark. */
  function Effects(t: Tables): Tables {
    t.(audits := [])
  }

  lemma SplitPoints(plans: Plans, keys: seq<Key>, key: Key)
    ensures Armed(plans, keys + [key]) == Armed(plans, keys) + Armed(plans, [key])
  {
    if keys == [] {
      assert keys + [key] == [key];
    } else {
      assert (keys + [key])[1..] == keys[1..] + [key];
      SplitPoints(plans, keys[1..], key);
    }
  }

  lemma VisitOne(plans: Plans, key: Key)
    requires PlansOk(plans)
    ensures var (after, raised) := Visit(plans, key);
            && PlansOk(after)
            && (raised.Some? <==> Armed(plans, [key]) > 0)
            && Armed(after, [key]) == if raised.Some? then Armed(plans, [key]) - 1 else 0
  {
    WalkTakesOne(plans, [key]);
    assert Walk(plans, [key]).0 == Visit(plans, key).0;
  }

  lemma {:induction false} WalkKeepsNoPermanent(plans: Plans, keys: seq<Key>, key: Key)
    requires NoPermanent(plans, key)
    ensures NoPermanent(Walk(plans, keys).0, key)
    decreases |keys|
  {
    if keys != [] {
      var (next, raised) := Visit(plans, keys[0]);
      if raised.None? {
        WalkKeepsNoPermanent(next, keys[1..], key);
      }
    }
  }

  lemma VisitIsCalm(plans: Plans, key: Key, scope: string)
    requires Calm(plans, scope)
    ensures Calm(Visit(plans, key).0, scope)
  {
  }

  /** One more armed trigger is one more failed attempt. */
  predicate OneFewer(a: Activity, plans: Plans, after: Plans, scope: string, ended: Ended) {
    var before := Armed(plans, Points(a, scope));
    && ended == (if before > 0 then TryAgain else Acked)
    && Armed(after, Points(a, scope)) == if before > 0 then before - 1 else 0
  }

  lemma BeginTakesOne(plans: Plans, scope: string, t: Tables, env: Env)
    requires Calm(plans, scope) && Healthy(env) && Reusable(t.lookup)
    ensures var (p, rows, ended) := Attempt(Begin, plans, scope, t, env);
            Calm(p, scope) && OneFewer(Begin, plans, p, scope, ended)
  {
    var keys, lookup := BeforeTransaction(scope), Key(FaultPoint.VendorLookup, scope);
    assert Points(Begin, scope) == keys + [lookup];
    SplitPoints(plans, keys, lookup);
    WalkTakesOne(plans, keys);
    WalkLeavesOthers(plans, keys, lookup);
    WalkKeepsNoPermanent(plans, keys, lookup);
    WalkKeepsNoPermanent(plans, keys, Key(PolicyRetrieval, scope));
    var (p, raised) := Walk(plans, keys);
    SplitPoints(p, keys, lookup);
    if raised.None? {
      var q := Visit(p, lookup).0;
      VisitOne(p, lookup);
      VisitIsCalm(p, lookup, scope);
      ArmedElsewhere(p, keys, lookup);
      SplitPoints(q, keys, lookup);
    }
  }

  lemma AssessTakesOne(plans: Plans, scope: string, t: Tables, env: Env)
    requires Calm(plans, scope) && Healthy(env) && Reusable(t.policy)
    ensures var (p, rows, ended) := Attempt(Assess, plans, scope, t, env);
            Calm(p, scope) && OneFewer(Assess, plans, p, scope, ended)
  {
    var policy := Key(PolicyRetrieval, scope);
    VisitOne(plans, policy);
    VisitIsCalm(plans, policy, scope);
    var q := Visit(plans, policy).0;
    VisitIsCalm(q, Key(ProviderCall, scope), scope);
    ArmedElsewhere(q, [policy], Key(ProviderCall, scope));
  }

  lemma AskTakesOne(plans: Plans, scope: string, t: Tables, env: Env)
    requires Calm(plans, scope)
    ensures var (p, rows, ended) := Attempt(Ask, plans, scope, t, env);
            Calm(p, scope) && OneFewer(Ask, plans, p, scope, ended)
  {
    VisitOne(plans, Key(WaitingForApproval, scope));
    VisitIsCalm(plans, Key(WaitingForApproval, scope), scope);
  }

  /** What a failed attempt leaves is completed to the same effects as if it had not happened. */
  ghost predicate Resumable(a: Activity, t: Tables, rows: Tables, first: Env) {
    && Reusable(rows.lookup) && Reusable(rows.policy)
    && forall env :: Healthy(env) ==>
         Effects(Undisturbed(a, rows, env)) == Effects(Undisturbed(a, t, first))
  }

  lemma RetriedLookupResumes(t: Tables, first: Env, category: string)
    requires Healthy(first) && Reusable(t.lookup) && Reusable(t.policy)
    ensures Resumable(Begin, t, BeginReview(t, first.lookup.(fault := Retryable(category))).0, first)
  {
  }

  lemma UntouchedResumes(t: Tables, first: Env)
    requires Healthy(first) && Reusable(t.lookup) && Reusable(t.policy)
    ensures Resumable(Begin, t, t, first)
  {
  }

  lemma BeginResumes(plans: Plans, scope: string, t: Tables, first: Env)
    requires Calm(plans, scope) && Healthy(first) && Reusable(t.lookup) && Reusable(t.policy)
    ensures var (p, rows, ended) := Attempt(Begin, plans, scope, t, first);
            if ended.TryAgain? then Resumable(Begin, t, rows, first)
            else Effects(rows) == Effects(Undisturbed(Begin, t, first))
  {
    WalkKeepsNoPermanent(plans, BeforeTransaction(scope), Key(FaultPoint.VendorLookup, scope));
    var (p, raised) := Walk(plans, BeforeTransaction(scope));
    if raised.Some? {
      UntouchedResumes(t, first);
    } else {
      var inside := Visit(p, Key(FaultPoint.VendorLookup, scope)).1;
      if inside.Some? {
        RetriedLookupResumes(t, first, inside.value.category);
      }
    }
  }

  lemma AssessResumes(plans: Plans, scope: string, t: Tables, first: Env)
    requires Calm(plans, scope) && Healthy(first) && Reusable(t.lookup) && Reusable(t.policy)
    ensures var (p, rows, ended) := Attempt(Assess, plans, scope, t, first);
            if ended.TryAgain? then Resumable(Assess, t, rows, first)
            else Effects(rows) == Effects(Undisturbed(Assess, t, first))
  {
  }

  lemma AskResumes(plans: Plans, scope: string, t: Tables, first: Env)
    requires Reusable(t.lookup) && Reusable(t.policy)
    ensures var (p, rows, ended) := Attempt(Ask, plans, scope, t, first);
            Resumable(Ask, t, rows, first) && rows == Undisturbed(Ask, t, first)
  {
    var rows := RequestApproval(t, first.freshId).0;
    AppendedOnce(t.events, 30, ApprovalRequested);
    forall env ensures Undisturbed(Ask, rows, env) == rows {
    }
  }

  lemma AppendedOnce(events: seq<Event>, sequence: int, kind: EventKind)
    ensures HasSequence(Append(events, sequence, kind), sequence)
  {
    var appended := Append(events, sequence, kind);
    if !HasSequence(events, sequence) {
      assert appended[|events|].sequence == sequence;
    }
  }

  lemma AttemptSurvives(a: Activity, plans: Plans, scope: string, t: Tables, env: Env)
    requires !a.Record? && Calm(plans, scope) && Healthy(env) && Reusable(t.lookup) && Reusable(t.policy)
    ensures var (p, rows, ended) := Attempt(a, plans, scope, t, env);
            && Calm(p, scope) && OneFewer(a, plans, p, scope, ended)
            && if ended.TryAgain? then Resumable(a, t, rows, env)
               else Effects(rows) == Effects(Undisturbed(a, t, env))
  {
    match a {
      case Begin => BeginTakesOne(plans, scope, t, env); BeginResumes(plans, scope, t, env);
      case Assess => AssessTakesOne(plans, scope, t, env); AssessResumes(plans, scope, t, env);
      case Ask => AskTakesOne(plans, scope, t, env); AskResumes(plans, scope, t, env);
    }
  }

  lemma {:induction false} ExecuteSurvives(a: Activity, plans: Plans, scope: string, t: Tables, envs: seq<Env>)
    requires !a.Record? && Calm(plans, scope) && Reusable(t.lookup) && Reusable(t.policy)
    requires envs != [] && forall env :: env in envs ==> Healthy(env)
    ensures var (p, rows, acked) := Execute(a, plans, scope, t, envs);
            && (acked <==> Armed(plans, Points(a, scope)) < |envs|)
            && (acked ==> Effects(rows) == Effects(Undisturbed(a, t, envs[0])))
    decreases |envs|
  {
    assert Healthy(envs[0]) by {
      assert envs[0] in envs;
    }
    AttemptSurvives(a, plans, scope, t, envs[0]);
    var (p, rows, ended) := Attempt(a, plans, scope, t, envs[0]);
    if ended.TryAgain? && |envs| > 1 {
      assert Healthy(envs[1]) by {
        assert envs[1] in envs;
      }
      ExecuteSurvives(a, p, scope, rows, envs[1..]);
    }
  }

  /**
   Over its three attempts the activity is acknowledged exactly when at most two triggers are
   armed across its failing points, and then its effects are those of one undisturbed attempt.
   */
  lemma TwoTriggersAreSurvived(a: Activity, plans: Plans, scope: string, t: Tables, envs: seq<Env>)
    requires !a.Record? && Calm(plans, scope) && Reusable(t.lookup) && Reusable(t.policy)
    requires |envs| == MAXIMUM_ATTEMPTS && forall env :: env in envs ==> Healthy(env)
    ensures var (p, rows, acked) := Execute(a, plans, scope, t, envs);
            && (acked <==> Armed(plans, Points(a, scope)) <= 2)
            && (acked ==> Effects(rows) == Effects(Undisturbed(a, t, envs[0])))
  {
    ExecuteSurvives(a, plans, scope, t, envs);
  }

  /** A permanent fault armed at the lookup fails the review at once, and the run says why. */
  lemma PermanentFaultFailsReview(plans: Plans, scope: string, t: Tables, env: Env)
    requires Armed(plans, BeforeTransaction(scope)) == 0 && PlansOk(plans)
    requires var key := Key(FaultPoint.VendorLookup, scope);
             Ready(plans, key) && plans[key].action == PermanentException
    ensures var (p, rows, ended) := Attempt(Begin, plans, scope, t, env);
            && ended == GaveUp && rows.run == RunStatus.Failed
            && (!HasSequence(t.events, 15) ==> rows.events == t.events + [Event(15, ReviewFailed("invalid_input"))])
            && (t.lookup == None ==> rows.lookup == Some(NotExecuted))
  {
    var keys := BeforeTransaction(scope);
    WalkTakesOne(plans, keys);
    WalkLeavesOthers(plans, keys, Key(FaultPoint.VendorLookup, scope));
  }

  /** A fault armed at the model provider fails nothing: the assessment commits and the trigger is spent. */
  lemma ProviderFaultIsAbsorbed(plans: Plans, scope: string, t: Tables, env: Env)
    requires Ready(plans, Key(ProviderCall, scope)) && !Ready(plans, Key(PolicyRetrieval, scope))
    requires Healthy(env) && Reusable(t.policy)
    ensures var key := Key(ProviderCall, scope);
            var (p, rows, ended) := Attempt(Assess, plans, scope, t, env);
            && ended == Acked && rows == Undisturbed(Assess, t, env)
            && Remaining(p, key) == Remaining(plans, key) - 1
  {
  }

  // ----- The decision -----

  /** A committed decision is found again, and recording it again changes nothing. */
  lemma RedeliveredDecisionIsFound(t: Tables, d: Decision, env: EmailEnv, later: EmailEnv)
    requires RecordDecision(t, d, env).1.None?
    ensures var rows := RecordDecision(t, d, env).0;
            && FindDecision(rows.decisions, d.requestId, d.key) >= 0
            && RecordDecision(rows, d, later) == (rows, None)
  {
    var rows := RecordDecision(t, d, env).0;
    var i := FindRequest(t.requests, d.requestId);
    if FindDecision(t.decisions, d.requestId, d.key) < 0 {
      assert rows.decisions == t.decisions + [RowOf(d)];
      assert rows.decisions[|t.decisions|] == RowOf(d);
      var k := FindDecision(rows.decisions, d.requestId, d.key);
      assert k == |t.decisions|;
      assert rows.requests[i].id == d.requestId;
    }
  }

  /** However many triggers wait behind the decision, it is recorded once and acknowledged by the second attempt. */
  lemma DecisionSurvivesEveryTrigger(d: Decision, plans: Plans, scope: string, t: Tables, envs: seq<Env>)
    requires PlansOk(plans) && 2 <= |envs|
    requires RecordDecision(t, d, envs[0].mail).1.None?
    ensures var (p, rows, acked) := Execute(Record(d), plans, scope, t, envs);
            && acked && rows == RecordDecision(t, d, envs[0].mail).0
            && Armed(p, Points(Record(d), scope)) + 1 >= Armed(plans, Points(Record(d), scope))
  {
    RedeliveredDecisionIsFound(t, d, envs[0].mail, envs[1].mail);
    WalkTakesOne(plans, AfterDecision(scope));
    var (p, rows, ended) := Attempt(Record(d), plans, scope, t, envs[0]);
    if ended.TryAgain? {
      assert Attempt(Record(d), p, scope, rows, envs[1]) == (p, rows, Acked);
      assert Execute(Record(d), p, scope, rows, envs[1..]) == (p, rows, true);
    }
  }
}
