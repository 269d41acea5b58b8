/**
 Requests for runs: the run row, its start attempt and its grant snapshot are written by the one
 insert that wins the caller's idempotency key; every other request under the key reads that run.
 */
module RunRequests {
  import opened Base

  /** The unique key of a run row. */
  datatype Caller = Caller(principal: Uuid, key: string)

  /** What the request fingerprint covers. */
  datatype Request = Request(agent: Uuid, task: string)

  datatype RunRow = RunRow(id: Uuid, request: Request)

  datatype Reply = Created(id: Uuid) | Found(id: Uuid) | FingerprintConflict | BudgetExhausted

  datatype Tables = Tables(
    runs: map<Caller, RunRow>,
    attempts: set<Uuid>,                  // workflow_start_attempts, by run
    snapshots: map<Uuid, set<Uuid>>,      // run_tool_grant_snapshots, by run
    grants: map<Uuid, set<Uuid>>)         // agent_tool_grants, by agent

  /** The tools that a delegation hands on; None hands on whatever the agent is granted. */
  type Allowance = Option<set<Uuid>>

  function GrantsOf(grants: map<Uuid, set<Uuid>>, agent: Uuid): set<Uuid> {
    if agent in grants then grants[agent] else {}
  }

  function Snapshot(grants: map<Uuid, set<Uuid>>, agent: Uuid, allowed: Allowance): set<Uuid> {
    if allowed.None? then GrantsOf(grants, agent) else GrantsOf(grants, agent) * allowed.value
  }

  /** The three rows that the winning insert leads to. */
  function Inserted(t: Tables, caller: Caller, request: Request, allowed: Allowance, id: Uuid): Tables {
    t.(runs := t.runs[caller := RunRow(id, request)],
       attempts := t.attempts + {id},
       snapshots := t.snapshots[id := Snapshot(t.grants, request.agent, allowed)])
  }

  /** One request; `affordable` when the parent, if there is one, can pay for a child. */
  function CreateOrGet(
    t: Tables, caller: Caller, request: Request, allowed: Allowance, freshId: Uuid, affordable: bool)
    : (Tables, Reply)
  {
    if caller in t.runs then
      (t, if t.runs[caller].request == request then Found(t.runs[caller].id) else FingerprintConflict)
    else if !affordable then (t, BudgetExhausted)
    else (Inserted(t, caller, request, allowed, freshId), Created(freshId))
  }

  class RunRequestTables {
    var runs: map<Caller, RunRow>
    var attempts: set<Uuid>
    var snapshots: map<Uuid, set<Uuid>>
    var grants: map<Uuid, set<Uuid>>

    function Rows(): Tables
      reads this
    {
      Tables(runs, attempts, snapshots, grants)
    }

    constructor (grants: map<Uuid, set<Uuid>>)
      ensures Rows() == Tables(map[], {}, map[], grants)
    {
      runs, attempts, snapshots, this.grants := map[], {}, map[], grants;
    }

    /** INSERT ... ON CONFLICT DO NOTHING, then either the dependent rows or a read of the winner. */
    method CreateOrGetRun(caller: Caller, request: Request, allowed: Allowance, freshId: Uuid, affordable: bool)
      returns (reply: Reply)
      modifies this
      ensures (Rows(), reply) == CreateOrGet(old(Rows()), caller, request, allowed, freshId, affordable)
      ensures caller in old(runs) ==>
                && Rows() == old(Rows())
                && reply == if old(runs)[caller].request == request then Found(old(runs)[caller].id)
                            else FingerprintConflict
      ensures caller !in old(runs) && !affordable ==> Rows() == old(Rows()) && reply == BudgetExhausted
      ensures caller !in old(runs) && affordable ==>
                && reply == Created(freshId) && runs == old(runs)[caller := RunRow(freshId, request)]
                && attempts == old(attempts) + {freshId} && snapshots.Keys == old(snapshots).Keys + {freshId}
    {
      var saved := runs;
      var inserted := caller !in runs;
      if inserted {
        runs := runs[caller := RunRow(freshId, request)];
        if !affordable {
          runs := saved;
          return BudgetExhausted;
        }
        attempts := attempts + {freshId};
        var granted := GrantsOf(grants, request.agent);
        if allowed.Some? {
          granted := granted * allowed.value;
        }
        snapshots := snapshots[freshId := granted];
        return Created(freshId);
      }
      var run := runs[caller];
      if run.request != request {
        return FingerprintConflict;
      }
      return Found(run.id);
    }
  }

  // ----- Histories of requests and grants -----

  datatype Step =
    | Submit(caller: Caller, request: Request, allowed: Allowance, freshId: Uuid, affordable: bool)
    | Grant(agent: Uuid, tool: Uuid)
    | Revoke(agent: Uuid, tool: Uuid)

  /** A fresh identifier has not been used. */
  function Next(t: Tables, step: Step): Tables {
    match step
    case Submit(caller, request, allowed, freshId, affordable) =>
      if freshId in t.attempts then t else CreateOrGet(t, caller, request, allowed, freshId, affordable).0
    case Grant(agent, tool) => t.(grants := t.grants[agent := GrantsOf(t.grants, agent) + {tool}])
    case Revoke(agent, tool) => t.(grants := t.grants[agent := GrantsOf(t.grants, agent) - {tool}])
  }

  function After(t: Tables, schedule: seq<Step>): Tables
    decreases |schedule|
  {
    if schedule == [] then t else After(Next(t, schedule[0]), schedule[1..])
  }

  const EMPTY := Tables(map[], {}, map[], map[])

  /** Granting and revoking change what later runs of the agent may be given, and nothing that is recorded. */
  lemma GrantsAreForLaterRuns(t: Tables, agent: Uuid, tool: Uuid)
    ensures var granted, revoked := Next(t, Grant(agent, tool)), Next(t, Revoke(agent, tool));
            && granted.snapshots == revoked.snapshots == t.snapshots
            && granted.runs == revoked.runs == t.runs && granted.attempts == revoked.attempts == t.attempts
            && (forall request: Request, other: Uuid ::
                  && (other in Snapshot(granted.grants, request.agent, None) <==>
                        other in Snapshot(t.grants, request.agent, None) || (request.agent == agent && other == tool))
                  && (other in Snapshot(revoked.grants, request.agent, None) <==>
                        other in Snapshot(t.grants, request.agent, None) && !(request.agent == agent && other == tool)))
  {
  }

  predicate Unshared(runs: map<Caller, RunRow>) {
    forall c, d :: c in runs && d in runs && c != d ==> runs[c].id != runs[d].id
  }

  /** Runs, start attempts and snapshots correspond one to one. */
  predicate Inv(t: Tables) {
    && (forall c :: c in t.runs ==> t.runs[c].id in t.attempts)
    && Unshared(t.runs)
    && |t.runs| == |t.attempts|
    && t.snapshots.Keys == t.attempts
  }

  lemma InsertKeepsUnshared(runs: map<Caller, RunRow>, caller: Caller, row: RunRow)
    requires Unshared(runs) && forall c :: c in runs ==> runs[c].id != row.id
    ensures Unshared(runs[caller := row])
  {
  }

  lemma OneMoreKey<K, V>(m: map<K, V>, k: K, v: V)
    requires k !in m
    ensures |m[k := v]| == |m| + 1 && m[k := v].Keys == m.Keys + {k}
  {
    assert m[k := v].Keys == m.Keys + {k};
  }

  lemma InsertKeepsInv(t: Tables, caller: Caller, request: Request, allowed: Allowance, id: Uuid)
    requires Inv(t) && caller !in t.runs && id !in t.attempts
    ensures Inv(Inserted(t, caller, request, allowed, id))
  {
    InsertKeepsUnshared(t.runs, caller, RunRow(id, request));
    OneMoreKey(t.runs, caller, RunRow(id, request));
    OneMoreKey(t.snapshots, id, Snapshot(t.grants, request.agent, allowed));
  }

  lemma NextKeepsInv(t: Tables, step: Step)
    requires Inv(t)
    ensures Inv(Next(t, step))
  {
    match step {
      case Submit(caller, request, allowed, freshId, affordable) =>
        if freshId !in t.attempts && caller !in t.runs && affordable {
          InsertKeepsInv(t, caller, request, allowed, freshId);
        } else {
          assert Next(t, step) == t;
        }
      case _ => assert Next(t, step) == t.(grants := Next(t, step).grants);
    }
  }

  lemma {:induction false} AfterKeepsInv(t: Tables, schedule: seq<Step>)
    requires Inv(t)
    ensures Inv(After(t, schedule))
    decreases |schedule|
  {
    if schedule != [] {
      NextKeepsInv(t, schedule[0]);
      AfterKeepsInv(Next(t, schedule[0]), schedule[1..]);
    }
  }

  lemma {:induction false} AfterConcat(t: Tables, first: seq<Step>, second: seq<Step>)
    ensures After(t, first + second) == After(After(t, first), second)
    decreases |first|
  {
    if first == [] {
      assert first + second == second;
    } else {
      assert (first + second)[1..] == first[1..] + second;
      AfterConcat(Next(t, first[0]), first[1..], second);
    }
  }

  /** Every run has one start attempt and one snapshot, and no two callers share a run. */
  lemma OneAttemptPerRun(schedule: seq<Step>)
    ensures Inv(After(EMPTY, schedule))
  {
    AfterKeepsInv(EMPTY, schedule);
  }

  predicate Kept(t: Tables, u: Tables, caller: Caller) {
    caller in t.runs && t.runs[caller].id in t.snapshots ==>
      && caller in u.runs && u.runs[caller] == t.runs[caller]
      && u.runs[caller].id in u.snapshots && u.snapshots[u.runs[caller].id] == t.snapshots[t.runs[caller].id]
  }

  lemma {:induction false} RunsFrom(t: Tables, more: seq<Step>, caller: Caller)
    requires Inv(t)
    ensures Kept(t, After(t, more), caller)
    decreases |more|
  {
    if more != [] {
      NextKeepsInv(t, more[0]);
      assert Kept(t, Next(t, more[0]), caller);
      RunsFrom(Next(t, more[0]), more[1..], caller);
    }
  }

  /**
   Whoever wins the key fixes the run: at any later time a request under it changes nothing and gets
   that run exactly when it asks for the same agent and task, whatever else it allows, and the run's
   snapshot is what its agent was granted, and the winner allowed, at that moment.
   */
  lemma KeyFixesTheRun(
      schedule: seq<Step>, first: Step, more: seq<Step>,
      request: Request, allowed: Allowance, freshId: Uuid, affordable: bool)
    requires var t := After(EMPTY, schedule);
             && first.Submit? && first.affordable && first.caller !in t.runs && first.freshId !in t.attempts
    ensures var t := After(EMPTY, schedule);
            var u := After(EMPTY, schedule + [first] + more);
            && CreateOrGet(u, first.caller, request, allowed, freshId, affordable)
               == (u, if request == first.request then Found(first.freshId) else FingerprintConflict)
            && first.freshId in u.attempts && first.freshId in u.snapshots
            && (forall tool :: tool in u.snapshots[first.freshId] <==>
                  && first.request.agent in t.grants && tool in t.grants[first.request.agent]
                  && (first.allowed.Some? ==> tool in first.allowed.value))
  {
    var t := After(EMPTY, schedule);
    AfterKeepsInv(EMPTY, schedule);
    AfterConcat(EMPTY, schedule, [first]);
    assert After(t, [first]) == Next(t, first);
    NextKeepsInv(t, first);
    AfterConcat(EMPTY, schedule + [first], more);
    RunsFrom(Next(t, first), more, first.caller);
    AfterKeepsInv(Next(t, first), more);
  }
}
