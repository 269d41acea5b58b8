/**
 Delegation between managed runs: one transaction checks a child's authority against its
 parent, a second one creates the child and charges the parent. Authority can only shrink
 along a lineage, even though other steps may run between the two.
 */
module Delegation {
  import opened Base
  import opened RunStates
  import opened RuntimeState

  /** The deepest delegation that a manifest can allow (BudgetRequirements, DelegationPolicy). */
  const MAXIMUM_DEPTH := 20

  type Depth = d: nat | d <= MAXIMUM_DEPTH

  /** A registered agent version: its grants, and what its immutable manifest allows. */
  datatype Agent = Agent(grants: set<Uuid>, maximum: Counters, maxDepth: Depth, maxFanOut: nat)

  datatype Run = Run(
    agent: Uuid, parent: Option<Uuid>, root: Uuid, depth: nat, key: string,
    tools: set<Uuid>,             // tool grant snapshot
    limits: Counters,             // pinned budget
    consumed: Counters,
    children: seq<Uuid>,          // run_delegations rows of this parent, in creation order
    status: RunStatus)

  /** What a passed check hands to the creating transaction. `seen` is the parent's child count at the check. */
  datatype Ticket = Ticket(
    parent: Uuid, agent: Uuid, root: Uuid, depth: nat, key: string,
    tools: set<Uuid>, limits: Counters, seen: nat)

  datatype State = State(agents: map<Uuid, Agent>, runs: map<Uuid, Run>, tickets: set<Ticket>)

  datatype Step =
    | Register(agent: Uuid, row: Agent)
    | Grant(agent: Uuid, tool: Uuid)
    | StartRoot(id: Uuid, agent: Uuid, key: string)
    | Check(parent: Uuid, agent: Uuid, requested: Counters, depthLimit: Depth, key: string)
    | Create(ticket: Ticket, id: Uuid)
    | Spend(run: Uuid, charge: seq<Usage>, after: Counters)
    | Move(run: Uuid, status: RunStatus)     // any change of status; CANCELLED is never left

  const INITIAL := State(map[], map[], {})

  /** A root has depth zero; a child's parent exists and is one hop up. */
  predicate Linked(runs: map<Uuid, Run>, id: Uuid)
    requires id in runs
  {
    match runs[id].parent
    case None => runs[id].depth == 0
    case Some(p) => p in runs && runs[id].depth == runs[p].depth + 1
  }

  predicate Forest(runs: map<Uuid, Run>) {
    forall id {:trigger Linked(runs, id)} :: id in runs ==> Linked(runs, id)
  }

  /** The run and its ancestors, nearest first. */
  function Chain(runs: map<Uuid, Run>, id: Uuid): (chain: seq<Uuid>)
    requires Forest(runs) && id in runs
    ensures |chain| == runs[id].depth + 1 && chain[0] == id
    ensures forall a :: a in chain ==> a in runs
    decreases runs[id].depth
  {
    assert Linked(runs, id);
    [id] + match runs[id].parent case None => [] case Some(p) => Chain(runs, p)
  }

  /** The agents that run at the given run or above it. */
  function AgentsAbove(runs: map<Uuid, Run>, id: Uuid): set<Uuid>
    requires Forest(runs) && id in runs
    decreases runs[id].depth
  {
    assert Linked(runs, id);
    {runs[id].agent} + match runs[id].parent case None => {} case Some(p) => AgentsAbove(runs, p)
  }

  /** The ancestor walk of the check: it terminates because each hop lowers the depth. */
  method AncestorAgents(runs: map<Uuid, Run>, id: Uuid) returns (agents: set<Uuid>)
    requires Forest(runs) && id in runs
    ensures agents == AgentsAbove(runs, id)
  {
    agents := {runs[id].agent};
    var ancestor := id;
    while runs[ancestor].parent.Some?
      invariant ancestor in runs && runs[ancestor].agent in agents
      invariant agents + AgentsAbove(runs, ancestor) == AgentsAbove(runs, id)
      decreases runs[ancestor].depth
    {
      assert Linked(runs, ancestor);
      ancestor := runs[ancestor].parent.value;
      agents := agents + {runs[ancestor].agent};
    }
  }

  predicate FitsParent(requested: Counters, parent: Run) {
    forall name :: name in requested ==> requested[name] <= Get(parent.limits, name) - Get(parent.consumed, name)
  }

  predicate FitsAgent(requested: Counters, agent: Agent) {
    forall name :: name in requested ==> requested[name] <= Get(agent.maximum, name)
  }

  /** The checks that decide whether a delegation may be created. */
  ghost predicate CheckPasses(s: State, step: Step)
    requires step.Check?
  {
    && Forest(s.runs)
    && step.parent in s.runs && step.agent in s.agents && s.runs[step.parent].agent in s.agents
    && s.runs[step.parent].status != Cancelled
    && s.runs[step.parent].depth + 1 <= s.agents[s.runs[step.parent].agent].maxDepth
    && s.runs[step.parent].depth + 1 <= step.depthLimit
    && |s.runs[step.parent].children| < s.agents[s.runs[step.parent].agent].maxFanOut
    && step.agent !in AgentsAbove(s.runs, step.parent)
    && FitsParent(step.requested, s.runs[step.parent])
    && FitsAgent(step.requested, s.agents[step.agent])
    && s.agents[step.agent].grants <= s.runs[step.parent].tools
  }

  predicate KeyUsed(runs: map<Uuid, Run>, key: string) {
    exists id :: id in runs && runs[id].key == key
  }

  /** The parent after it has paid for one child. */
  function Paid(parent: Run, child: Uuid): Run {
    parent.(consumed := parent.consumed[
              "child_agents" := Get(parent.consumed, "child_agents") + 1][
              "steps" := Get(parent.consumed, "steps") + 1],
            children := parent.children + [child])
  }

  /** The creation takes effect: the ticket was issued, the id is fresh, the key is unused and the charge fits. */
  predicate Creates(s: State, t: Ticket, id: Uuid) {
    && t in s.tickets && id !in s.runs
    && t.parent in s.runs && t.agent in s.agents
    && !KeyUsed(s.runs, t.key)
    && Fits(s.runs[t.parent].limits, s.runs[t.parent].consumed, CHILD)
  }

  /** The creating transaction: a used key creates nothing, a charge that does not fit rolls back. */
  function CreateChild(s: State, t: Ticket, id: Uuid): State {
    if t.parent !in s.runs || t.agent !in s.agents || KeyUsed(s.runs, t.key) then s
    else if !Fits(s.runs[t.parent].limits, s.runs[t.parent].consumed, CHILD) then s
    else
      var parent := s.runs[t.parent];
      var child := Run(t.agent, Some(t.parent), t.root, t.depth, t.key,
                       s.agents[t.agent].grants * t.tools, t.limits, map[], [], Pending);
      s.(runs := s.runs[t.parent := Paid(parent, id)][id := child])
  }

  /** The parent pays exactly the charge of a child. */
  lemma PaidIsCharged(parent: Run, child: Uuid)
    ensures Charged(parent.consumed, Paid(parent, child).consumed, CHILD)
  {
    TotalOfTwo(CHILD[0], CHILD[1]);
  }

  ghost function Next(s: State, step: Step): State {
    match step
    case Register(agent, row) => if agent in s.agents then s else s.(agents := s.agents[agent := row])
    case Grant(agent, tool) =>
      if agent !in s.agents then s
      else s.(agents := s.agents[agent := s.agents[agent].(grants := s.agents[agent].grants + {tool})])
    case StartRoot(id, agent, key) =>
      if id in s.runs || agent !in s.agents || KeyUsed(s.runs, key) then s
      else
        var row := s.agents[agent];
        s.(runs := s.runs[id := Run(agent, None, id, 0, key, row.grants, row.maximum, map[], [], Pending)])
    case Check(parent, agent, requested, _, key) =>
      if !CheckPasses(s, step) then s
      else
        var p := s.runs[parent];
        s.(tickets := s.tickets + {
             Ticket(parent, agent, p.root, p.depth + 1, key, s.agents[agent].grants, requested, |p.children|)})
    case Create(t, id) =>
      if t !in s.tickets || id in s.runs then s else CreateChild(s, t, id)
    case Spend(id, charge, after) =>
      if id in s.runs && WellFormed(charge) && Fits(s.runs[id].limits, s.runs[id].consumed, charge)
         && Charged(s.runs[id].consumed, after, charge) && Total(charge, "child_agents") == 0
      then s.(runs := s.runs[id := s.runs[id].(consumed := after)])
      else s
    case Move(id, status) =>
      if id !in s.runs || s.runs[id].status == Cancelled then s
      else s.(runs := s.runs[id := s.runs[id].(status := status)])
  }

  ghost function After(s: State, schedule: seq<Step>): State
    decreases |schedule|
  {
    if schedule == [] then s else After(Next(s, schedule[0]), schedule[1..])
  }

  // ----- Authority only shrinks along a lineage -----

  ghost predicate NoMoreThan(a: Counters, b: Counters) {
    forall name :: Get(a, name) <= Get(b, name)
  }

  ghost predicate Attenuated(tools: set<Uuid>, limits: Counters, root: Uuid, parent: Run) {
    tools <= parent.tools && NoMoreThan(limits, parent.limits) && root == parent.root
  }

  ghost predicate RunInv(s: State, id: Uuid)
    requires Forest(s.runs) && id in s.runs
  {
    var run := s.runs[id];
    assert Linked(s.runs, id);
    && run.agent in s.agents && run.depth <= MAXIMUM_DEPTH
    && match run.parent
       case None => run.root == id
       case Some(p) =>
         Attenuated(run.tools, run.limits, run.root, s.runs[p]) && run.agent !in AgentsAbove(s.runs, p)
  }

  ghost predicate TicketInv(s: State, t: Ticket)
    requires Forest(s.runs)
  {
    && t.parent in s.runs && t.agent in s.agents
    && t.depth == s.runs[t.parent].depth + 1 && t.depth <= MAXIMUM_DEPTH
    && Attenuated(t.tools, t.limits, t.root, s.runs[t.parent])
    && t.agent !in AgentsAbove(s.runs, t.parent)
  }

  ghost predicate Inv(s: State) {
    && Forest(s.runs)
    && (forall id {:trigger RunInv(s, id)} :: id in s.runs ==> RunInv(s, id))
    && (forall t {:trigger TicketInv(s, t)} :: t in s.tickets ==> TicketInv(s, t))
  }

  /** The fields of a run that no step changes. */
  predicate SameIdentity(a: Run, b: Run) {
    && a.agent == b.agent && a.parent == b.parent && a.root == b.root && a.depth == b.depth
    && a.tools == b.tools && a.limits == b.limits
  }

  predicate Extends(before: map<Uuid, Run>, after: map<Uuid, Run>) {
    forall id :: id in before ==> id in after && SameIdentity(before[id], after[id])
  }

  lemma ForestGrows(before: map<Uuid, Run>, after: map<Uuid, Run>)
    requires Forest(before) && Extends(before, after)
    requires forall id {:trigger Linked(after, id)} :: id in after && id !in before ==> Linked(after, id)
    ensures Forest(after)
  {
    forall id | id in after ensures Linked(after, id) {
      if id in before {
        assert Linked(before, id);
      }
    }
  }

  lemma {:induction false} LineageIsStable(before: map<Uuid, Run>, after: map<Uuid, Run>, id: Uuid)
    requires Forest(before) && Forest(after) && Extends(before, after) && id in before
    ensures AgentsAbove(after, id) == AgentsAbove(before, id) && Chain(after, id) == Chain(before, id)
    decreases before[id].depth
  {
    assert Linked(before, id) && Linked(after, id);
    match before[id].parent {
      case None =>
      case Some(p) => LineageIsStable(before, after, p);
    }
  }

  /** Runs and tickets of the state before stay good when the runs only grow. */
  lemma GrowthKeepsInv(s: State, s': State)
    requires Inv(s) && Forest(s'.runs) && Extends(s.runs, s'.runs) && s.agents.Keys <= s'.agents.Keys
    ensures forall id {:trigger RunInv(s', id)} :: id in s.runs ==> RunInv(s', id)
    ensures forall t {:trigger TicketInv(s', t)} :: t in s.tickets ==> TicketInv(s', t)
  {
    forall id | id in s.runs ensures RunInv(s', id) {
      assert RunInv(s, id) && Linked(s.runs, id);
      if s.runs[id].parent.Some? {
        LineageIsStable(s.runs, s'.runs, s.runs[id].parent.value);
      }
    }
    forall t | t in s.tickets ensures TicketInv(s', t) {
      assert TicketInv(s, t);
      LineageIsStable(s.runs, s'.runs, t.parent);
    }
  }

  lemma CheckKeepsInv(s: State, step: Step)
    requires Inv(s) && step.Check?
    ensures Inv(Next(s, step))
  {
    if CheckPasses(s, step) {
      GrowthKeepsInv(s, Next(s, step));
    }
  }

  /** One more run in the forest, good on its own, keeps the invariant; a parent may be rewritten on the way. */
  lemma NewRunKeepsInv(s: State, s': State, id: Uuid)
    requires Inv(s) && id !in s.runs && s'.runs.Keys == s.runs.Keys + {id}
    requires s'.agents == s.agents && s'.tickets == s.tickets
    requires Forest(s'.runs) && Extends(s.runs, s'.runs) && RunInv(s', id)
    ensures Inv(s')
  {
    GrowthKeepsInv(s, s');
    forall i | i in s'.runs ensures RunInv(s', i) {
      assert i == id || i in s.runs;
    }
  }

  lemma CreateKeepsInv(s: State, t: Ticket, id: Uuid)
    requires Inv(s) && t in s.tickets && id !in s.runs
    ensures Inv(CreateChild(s, t, id))
  {
    assert TicketInv(s, t) && RunInv(s, t.parent);
    var s' := CreateChild(s, t, id);
    if s' != s {
      ChildFits(s, t, id);
      NewRunKeepsInv(s, s', id);
    }
  }

  lemma ChildFits(s: State, t: Ticket, id: Uuid)
    requires Inv(s) && t in s.tickets && id !in s.runs && CreateChild(s, t, id) != s
    ensures Forest(CreateChild(s, t, id).runs) && Extends(s.runs, CreateChild(s, t, id).runs)
    ensures RunInv(CreateChild(s, t, id), id)
  {
    assert TicketInv(s, t);
    var s' := CreateChild(s, t, id);
    ForestGrows(s.runs, s'.runs);
    LineageIsStable(s.runs, s'.runs, t.parent);
  }

  lemma StartRootKeepsInv(s: State, step: Step)
    requires Inv(s) && step.StartRoot?
    ensures Inv(Next(s, step))
  {
    var s' := Next(s, step);
    if s' != s {
      ForestGrows(s.runs, s'.runs);
      assert RunInv(s', step.id);
      NewRunKeepsInv(s, s', step.id);
    }
  }

  lemma RewriteKeepsInv(s: State, step: Step)
    requires Inv(s) && (step.Spend? || step.Move?)
    ensures Inv(Next(s, step))
  {
    var s' := Next(s, step);
    if s' != s {
      ForestGrows(s.runs, s'.runs);
      GrowthKeepsInv(s, s');
    }
  }

  lemma AgentsGrowKeepsInv(s: State, agents: map<Uuid, Agent>)
    requires Inv(s) && s.agents.Keys <= agents.Keys
    ensures Inv(s.(agents := agents))
  {
    GrowthKeepsInv(s, s.(agents := agents));
  }

  lemma NextKeepsInv(s: State, step: Step)
    requires Inv(s)
    ensures Inv(Next(s, step))
  {
    match step {
      case Check(_, _, _, _, _) => CheckKeepsInv(s, step);
      case Create(t, id) =>
        if t in s.tickets && id !in s.runs {
          CreateKeepsInv(s, t, id);
        }
      case Spend(_, _, _) => RewriteKeepsInv(s, step);
      case Move(_, _) => RewriteKeepsInv(s, step);
      case StartRoot(_, _, _) => StartRootKeepsInv(s, step);
      case _ => AgentsGrowKeepsInv(s, Next(s, step).agents);
    }
  }

  lemma {:induction false} AfterKeepsInv(s: State, schedule: seq<Step>)
    requires Inv(s)
    ensures Inv(After(s, schedule))
    decreases |schedule|
  {
    if schedule != [] {
      NextKeepsInv(s, schedule[0]);
      AfterKeepsInv(Next(s, schedule[0]), schedule[1..]);
    }
  }

  // ----- The lineage theorem -----

  /** The k-th ancestor has at least the run's authority, the same root, k hops less depth and another agent. */
  lemma {:induction false} AncestorsDominate(s: State, id: Uuid, k: nat)
    requires Inv(s) && id in s.runs && k < |Chain(s.runs, id)|
    ensures var a := Chain(s.runs, id)[k];
            && a in s.runs
            && Attenuated(s.runs[id].tools, s.runs[id].limits, s.runs[id].root, s.runs[a])
            && s.runs[id].depth == s.runs[a].depth + k
            && s.runs[a].agent in AgentsAbove(s.runs, id)
            && Chain(s.runs, a) == Chain(s.runs, id)[k..]
            && (k > 0 ==> s.runs[a].agent != s.runs[id].agent)
    decreases k
  {
    assert RunInv(s, id) && Linked(s.runs, id);
    if k > 0 {
      var p := s.runs[id].parent.value;
      AncestorsDominate(s, p, k - 1);
      assert Chain(s.runs, id)[1..] == Chain(s.runs, p);
    }
  }

  lemma {:induction false} DistinctAgents(s: State, id: Uuid)
    requires Inv(s) && id in s.runs
    ensures |AgentsAbove(s.runs, id)| == s.runs[id].depth + 1 && AgentsAbove(s.runs, id) <= s.agents.Keys
    decreases s.runs[id].depth
  {
    assert RunInv(s, id) && Linked(s.runs, id);
    match s.runs[id].parent {
      case None =>
      case Some(p) => DistinctAgents(s, p);
    }
  }

  lemma {:induction false} SubsetCardinality<T>(a: set<T>, b: set<T>)
    requires a <= b
    ensures |a| <= |b|
  {
    if a != {} {
      var x :| x in a;
      SubsetCardinality(a - {x}, b - {x});
    }
  }

  lemma EveryStateIsGood(schedule: seq<Step>)
    ensures Inv(After(INITIAL, schedule))
  {
    AfterKeepsInv(INITIAL, schedule);
  }

  /** Over every interleaving of checks and creations: what holds between two runs of one delegation chain. */
  lemma LineageOnlyAttenuates(schedule: seq<Step>, id: Uuid, i: nat, j: nat)
    requires var s := After(INITIAL, schedule);
             Forest(s.runs) && id in s.runs && i < j < |Chain(s.runs, id)|
    ensures var s := After(INITIAL, schedule);
            var near := Chain(s.runs, id)[i];
            var far := Chain(s.runs, id)[j];
            && near in s.runs && far in s.runs
            && s.runs[near].tools <= s.runs[far].tools
            && NoMoreThan(s.runs[near].limits, s.runs[far].limits)
            && s.runs[near].root == s.runs[far].root
            && s.runs[near].depth == s.runs[far].depth + (j - i)
            && s.runs[near].agent != s.runs[far].agent
  {
    var s := After(INITIAL, schedule);
    EveryStateIsGood(schedule);
    AncestorsDominate(s, id, i);
    var near := Chain(s.runs, id)[i];
    assert Chain(s.runs, near)[j - i] == Chain(s.runs, id)[j];
    AncestorsDominate(s, near, j - i);
  }

  /** No delegation chain is longer than the number of registered agents, nor deeper than 20. */
  lemma DepthIsBounded(schedule: seq<Step>, id: Uuid)
    requires id in After(INITIAL, schedule).runs
    ensures var s := After(INITIAL, schedule);
            s.runs[id].depth + 1 <= |s.agents.Keys| && s.runs[id].depth <= 20
  {
    var s := After(INITIAL, schedule);
    EveryStateIsGood(schedule);
    assert RunInv(s, id);
    DistinctAgents(s, id);
    SubsetCardinality(AgentsAbove(s.runs, id), s.agents.Keys);
  }

  // ----- The checking transaction as it runs -----

  /** One pass over the requested limits, in any order of their names. */
  method BudgetFits(requested: Counters, parent: Run, agent: Agent) returns (ok: bool)
    ensures ok <==> FitsParent(requested, parent) && FitsAgent(requested, agent)
    ensures ok <==>
              forall name :: name in requested ==>
                && requested[name] <= Get(parent.limits, name) - Get(parent.consumed, name)
                && requested[name] <= Get(agent.maximum, name)
  {
    var names := requested.Keys;
    while names != {}
      invariant names <= requested.Keys
      invariant forall name :: name in requested && name !in names ==>
                  && requested[name] <= Get(parent.limits, name) - Get(parent.consumed, name)
                  && requested[name] <= Get(agent.maximum, name)
      decreases names
    {
      var name :| name in names;
      var remaining := Get(parent.limits, name) - Get(parent.consumed, name);
      if requested[name] > remaining || requested[name] > Get(agent.maximum, name) {
        return false;
      }
      names := names - {name};
    }
    return true;
  }

  method CheckDelegation(
    agents: map<Uuid, Agent>, runs: map<Uuid, Run>,
    parent: Uuid, agent: Uuid, requested: Counters, depthLimit: Depth, key: string, ghost s: State)
    returns (ticket: Option<Ticket>)
    requires s.agents == agents && s.runs == runs && Forest(runs)
    requires parent in runs && runs[parent].agent in agents
    ensures ticket.Some? <==> CheckPasses(s, Check(parent, agent, requested, depthLimit, key))
    ensures ticket.Some? <==>
              var p := runs[parent];
              && agent in agents && p.status != Cancelled
              && p.depth + 1 <= agents[p.agent].maxDepth && p.depth + 1 <= depthLimit
              && |p.children| < agents[p.agent].maxFanOut
              && agent !in AgentsAbove(runs, parent)
              && (forall name :: name in requested ==>
                    && requested[name] <= Get(p.limits, name) - Get(p.consumed, name)
                    && requested[name] <= Get(agents[agent].maximum, name))
              && agents[agent].grants <= p.tools
    ensures ticket.Some? ==>
              var p := runs[parent];
              ticket.value ==
              Ticket(parent, agent, p.root, p.depth + 1, key, agents[agent].grants, requested, |p.children|)
    ensures ticket.Some? ==>
              Next(s, Check(parent, agent, requested, depthLimit, key)) == s.(tickets := s.tickets + {ticket.value})
  {
    var p := runs[parent];
    if p.status == Cancelled {
      return None;
    }
    if agent !in agents {
      return None;
    }
    var policy := agents[p.agent];
    if p.depth + 1 > policy.maxDepth || p.depth + 1 > depthLimit {
      return None;
    }
    if |p.children| >= policy.maxFanOut {
      return None;
    }
    var ancestors := AncestorAgents(runs, parent);
    if agent in ancestors {
      return None;
    }
    var fits := BudgetFits(requested, p, agents[agent]);
    if !fits {
      return None;
    }
    if !(agents[agent].grants <= p.tools) {
      return None;
    }
    return Some(Ticket(parent, agent, p.root, p.depth + 1, key, agents[agent].grants, requested, |p.children|));
  }
}
