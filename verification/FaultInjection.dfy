/**
 Persisted fault plans: a plan arms a number of triggers at one fault point for one scope, each
 trigger is consumed once whichever worker gets there first, and clearing discards the rest.
 */
module FaultInjection {
  import opened Base

  datatype FaultPoint =
    | VendorLookup | PolicyRetrieval | ActiveActivity | WaitingForApproval
    | EmailPostCommitHandoff | ProjectionPostCommitHandoff | WorkflowStartHandoff
    | DatabaseOperation | ProviderCall | McpCall

  datatype Action =
    | Delay | RetryableException | PermanentException | TemporaryDatabaseOutage
    | ProviderFailure | ToolMcpFailure | AmbiguousHandoff | WorkerTermination

  datatype PlanStatus = Active | Exhausted | Cleared

  /** The unique key of a plan. */
  datatype Key = Key(point: FaultPoint, scope: string)

  datatype Plan = Plan(action: Action, triggers: nat, remaining: nat, delay: nat, status: PlanStatus)

  type Plans = map<Key, Plan>

  datatype Consumption = Consumption(key: Key, action: Action, remaining: nat)

  datatype Directive = Directive(key: Key, action: Action, delay: nat, remaining: nat)

  datatype PlanError = Disabled | InvalidScope | InvalidCount | InvalidDelay | SecretMetadata | AlreadyActive

  datatype Failure = Failure(category: string, retryable: bool)

  /** What reaches the caller of a fault point that raises; Delay raises nothing. */
  function FailureFor(action: Action): (failure: Option<Failure>)
    ensures failure.None? <==> action == Delay
    ensures failure.Some? ==> (failure.value.retryable <==> action != PermanentException)
  {
    match action
    case Delay => None
    case RetryableException => Some(Failure("tool_handler_unavailable", true))
    case PermanentException => Some(Failure("invalid_input", false))
    case TemporaryDatabaseOutage => Some(Failure("database_unavailable", true))
    case ProviderFailure => Some(Failure("provider_unavailable", true))
    case ToolMcpFailure => Some(Failure("mcp_transport_unavailable", true))
    case AmbiguousHandoff => Some(Failure("ambiguous_handoff", true))
    case WorkerTermination => Some(Failure("worker_terminated", true))
  }

  /** The category tells the action that was armed, and which of them Temporal must not retry. */
  lemma CategoryNamesAction(action: Action, category: string)
    ensures FailureFor(action).Some? && FailureFor(action).value.category == category <==>
            || (action == RetryableException && category == "tool_handler_unavailable")
            || (action == PermanentException && category == "invalid_input")
            || (action == TemporaryDatabaseOutage && category == "database_unavailable")
            || (action == ProviderFailure && category == "provider_unavailable")
            || (action == ToolMcpFailure && category == "mcp_transport_unavailable")
            || (action == AmbiguousHandoff && category == "ambiguous_handoff")
            || (action == WorkerTermination && category == "worker_terminated")
  {
  }

  // ----- Conservation -----

  predicate Ready(plans: Plans, key: Key) {
    key in plans && plans[key].status == Active && plans[key].remaining > 0
  }

  function Remaining(plans: Plans, key: Key): nat {
    if key in plans then plans[key].remaining else 0
  }

  function Consumed(rows: seq<Consumption>, key: Key): nat {
    if rows == [] then 0
    else Consumed(rows[..|rows| - 1], key) + if rows[|rows| - 1].key == key then 1 else 0
  }

  function Count(totals: map<Key, nat>, key: Key): nat {
    if key in totals then totals[key] else 0
  }

  predicate PlanOk(plan: Plan) {
    && 1 <= plan.triggers <= 10
    && plan.remaining <= plan.triggers
    && plan.delay <= 60000
    && (plan.status == Active <==> plan.remaining > 0)
  }

  lemma ConsumedAppend(rows: seq<Consumption>, row: Consumption, key: Key)
    ensures Consumed(rows + [row], key) == Consumed(rows, key) + if row.key == key then 1 else 0
  {
    assert (rows + [row])[..|rows|] == rows;
  }

  // ----- One fault point -----

  function Spend(plan: Plan): Plan
    requires plan.remaining > 0
  {
    plan.(remaining := plan.remaining - 1, status := if plan.remaining == 1 then Exhausted else plan.status)
  }

  /** The plans after one visit to a fault point, and what the visit raises. */
  function Visit(plans: Plans, key: Key): (Plans, Option<Failure>) {
    if Ready(plans, key) then (plans[key := Spend(plans[key])], FailureFor(plans[key].action))
    else (plans, None)
  }

  /** Visits in order; the first that raises ends the walk. */
  function Walk(plans: Plans, keys: seq<Key>): (Plans, Option<Failure>) {
    if keys == [] then (plans, None)
    else
      var (next, raised) := Visit(plans, keys[0]);
      if raised.Some? then (next, raised) else Walk(next, keys[1..])
  }

  class FaultInjector {
    const enabled: bool
    var plans: Plans
    var consumptions: seq<Consumption>
    ghost var created: map<Key, nat>      // triggers that plans have armed
    ghost var discarded: map<Key, nat>    // triggers that clearing has thrown away

    /** Every trigger ever armed is consumed once, still waiting, or discarded. */
    ghost predicate Valid()
      reads this
    {
      && (forall key :: key in plans ==> PlanOk(plans[key]))
      && (forall key :: Count(created, key) ==
            Consumed(consumptions, key) + Remaining(plans, key) + Count(discarded, key))
      && (!enabled ==> consumptions == [] && plans == map[])
    }

    constructor (enabled: bool)
      ensures Valid() && this.enabled == enabled
      ensures plans == map[] && consumptions == [] && created == map[] && discarded == map[]
    {
      this.enabled := enabled;
      plans, consumptions, created, discarded := map[], [], map[], map[];
    }

    /** Arm a plan; a plan that is still active must be cleared first. */
    method Create(key: Key, action: Action, triggers: int, delay: int, secretLike: bool)
        returns (error: Option<PlanError>)
      requires Valid()
      modifies `plans, `created
      ensures Valid()
      ensures error == if !enabled then Some(Disabled)
                       else if !(0 < |key.scope| <= 240) then Some(InvalidScope)
                       else if !(1 <= triggers <= 10) then Some(InvalidCount)
                       else if !(0 <= delay <= 60000) then Some(InvalidDelay)
                       else if secretLike then Some(SecretMetadata)
                       else if Remaining(old(plans), key) > 0 then Some(AlreadyActive)
                       else None
      ensures error.Some? ==> plans == old(plans) && created == old(created)
      ensures error.None? ==> plans == old(plans)[key := Plan(action, triggers, triggers, delay, Active)]
      ensures error.None? ==> created == old(created)[key := Count(old(created), key) + triggers]
    {
      if !enabled {
        return Some(Disabled);
      }
      if |key.scope| == 0 || |key.scope| > 240 {
        return Some(InvalidScope);
      }
      if triggers < 1 || triggers > 10 {
        return Some(InvalidCount);
      }
      if delay < 0 || delay > 60000 {
        return Some(InvalidDelay);
      }
      if secretLike {
        return Some(SecretMetadata);
      }
      if key in plans && plans[key].status == Active {
        return Some(AlreadyActive);
      }
      plans := plans[key := Plan(action, triggers, triggers, delay, Active)];
      created := created[key := Count(created, key) + triggers];
      return None;
    }

    /** Take one trigger, if there is one, and record who it was taken from. */
    method Consume(key: Key) returns (directive: Option<Directive>)
      requires Valid()
      modifies `plans, `consumptions
      ensures Valid()
      ensures directive.Some? <==> enabled && Remaining(old(plans), key) > 0
      ensures plans == if enabled then Visit(old(plans), key).0 else old(plans)
      ensures directive.None? ==> consumptions == old(consumptions) && plans == old(plans)
      ensures directive.Some? ==>
                && key in old(plans)
                && var plan, left := old(plans)[key], Remaining(old(plans), key) - 1;
                   plans == old(plans)[key := Plan(plan.action, plan.triggers, left, plan.delay,
                                                   if left == 0 then Exhausted else Active)]
      ensures directive.Some? ==>
                && key in old(plans)
                && directive.value == Directive(key, old(plans)[key].action, old(plans)[key].delay,
                                                Remaining(old(plans), key) - 1)
                && consumptions == old(consumptions)
                   + [Consumption(key, directive.value.action, directive.value.remaining)]
    {
      if !enabled || !(key in plans && plans[key].status == Active && plans[key].remaining > 0) {
        return None;
      }
      var plan := plans[key];
      var remaining := plan.remaining - 1;
      var row := Consumption(key, plan.action, remaining);
      forall k ensures Consumed(consumptions + [row], k) == Consumed(consumptions, k) + if key == k then 1 else 0 {
        ConsumedAppend(consumptions, row, k);
      }
      plans := plans[key := plan.(remaining := remaining, status := if remaining == 0 then Exhausted else Active)];
      consumptions := consumptions + [row];
      return Some(Directive(key, plan.action, plan.delay, remaining));
    }

    /** Disable a plan without erasing what it has done. */
    method Clear(key: Key) returns (r: Option<bool>)
      requires Valid()
      modifies `plans, `discarded
      ensures Valid()
      ensures r == if !enabled then None else Some(key in old(plans))
      ensures r != Some(true) ==> plans == old(plans) && discarded == old(discarded)
      ensures r == Some(true) ==>
                && plans == old(plans)[key := old(plans)[key].(remaining := 0, status := Cleared)]
                && discarded == old(discarded)[key := Count(old(discarded), key) + Remaining(old(plans), key)]
    {
      if !enabled {
        return None;
      }
      if key !in plans {
        return Some(false);
      }
      discarded := discarded[key := Count(discarded, key) + plans[key].remaining];
      plans := plans[key := plans[key].(remaining := 0, status := Cleared)];
      return Some(true);
    }

    method Inject(key: Key) returns (raised: Option<Failure>)
      requires Valid()
      modifies `plans, `consumptions
      ensures Valid()
      ensures (plans, raised) == if enabled then Visit(old(plans), key) else (old(plans), None)
      ensures raised.Some? <==>
                enabled && key in old(plans) && old(plans)[key].remaining > 0 && old(plans)[key].action != Delay
    {
      var directive := Consume(key);
      if directive.None? {
        return None;
      }
      return FailureFor(directive.value.action);
    }

    /** The fault points of one stretch of an activity, in order. */
    method InjectAll(keys: seq<Key>) returns (raised: Option<Failure>)
      requires Valid() && enabled
      modifies `plans, `consumptions
      ensures Valid()
      ensures (plans, raised) == Walk(old(plans), keys)
    {
      raised := None;
      for i := 0 to |keys|
        invariant Valid() && raised.None?
        invariant Walk(plans, keys[i..]) == Walk(old(plans), keys)
      {
        assert keys[i..][1..] == keys[i + 1..];
        raised := Inject(keys[i]);
        if raised.Some? {
          return;
        }
      }
    }
  }

  // ----- How many triggers a walk can raise -----

  function Armed(plans: Plans, keys: seq<Key>): nat {
    if keys == [] then 0
    else
      (if Ready(plans, keys[0]) && FailureFor(plans[keys[0]].action).Some? then plans[keys[0]].remaining else 0)
      + Armed(plans, keys[1..])
  }

  predicate PlansOk(plans: Plans) {
    forall key :: key in plans ==> PlanOk(plans[key])
  }

  lemma {:induction false} ArmedElsewhere(plans: Plans, keys: seq<Key>, key: Key)
    requires key !in keys
    ensures Armed(Visit(plans, key).0, keys) == Armed(plans, keys)
    decreases |keys|
  {
    if keys != [] {
      ArmedElsewhere(plans, keys[1..], key);
    }
  }

  lemma VisitKeepsPlans(plans: Plans, key: Key)
    requires PlansOk(plans)
    ensures PlansOk(Visit(plans, key).0)
  {
  }

  /** A walk over distinct points raises exactly when one of them is armed, and takes one trigger off. */
  lemma {:induction false} WalkTakesOne(plans: Plans, keys: seq<Key>)
    requires PlansOk(plans) && NoDuplicates(keys)
    ensures var (after, raised) := Walk(plans, keys);
            && PlansOk(after)
            && (raised.Some? <==> Armed(plans, keys) > 0)
            && Armed(after, keys) == if raised.Some? then Armed(plans, keys) - 1 else 0
    decreases |keys|
  {
    if keys != [] {
      var (next, raised) := Visit(plans, keys[0]);
      VisitKeepsPlans(plans, keys[0]);
      ArmedElsewhere(plans, keys[1..], keys[0]);
      if raised.None? {
        WalkTakesOne(next, keys[1..]);
        WalkLeavesOthers(next, keys[1..], keys[0]);
      }
    }
  }

  lemma {:induction false} WalkLeavesOthers(plans: Plans, keys: seq<Key>, key: Key)
    requires key !in keys
    ensures var after := Walk(plans, keys).0;
            && (key in after <==> key in plans)
            && (key in plans ==> after[key] == plans[key])
    decreases |keys|
  {
    if keys != [] {
      var (next, raised) := Visit(plans, keys[0]);
      if raised.None? {
        WalkLeavesOthers(next, keys[1..], key);
      }
    }
  }
}
