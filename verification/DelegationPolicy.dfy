/**
 What the manifests promise of every run that exists: no run is deeper than its parent's manifest
 allows, and none has a higher limit than its own agent's. Checks and creations interleave freely.
 */
module DelegationPolicy {
  import opened Base
  import opened RunStates
  import opened RuntimeState
  import opened Delegation

  ghost predicate WithinManifest(s: State, agent: Uuid, limits: Counters) {
    agent in s.agents && forall name :: Get(limits, name) <= Get(s.agents[agent].maximum, name)
  }

  ghost predicate WithinDepth(s: State, parent: Uuid, depth: nat) {
    && parent in s.runs && s.runs[parent].agent in s.agents
    && depth <= s.agents[s.runs[parent].agent].maxDepth
  }

  ghost predicate RunWithinPolicy(s: State, id: Uuid) {
    id in s.runs ==>
      && WithinManifest(s, s.runs[id].agent, s.runs[id].limits)
      && (s.runs[id].parent.Some? ==> WithinDepth(s, s.runs[id].parent.value, s.runs[id].depth))
  }

  ghost predicate TicketWithinPolicy(s: State, t: Ticket) {
    t in s.tickets ==> WithinManifest(s, t.agent, t.limits) && WithinDepth(s, t.parent, t.depth)
  }

  ghost predicate PolicyInv(s: State) {
    && (forall id {:trigger RunWithinPolicy(s, id)} :: RunWithinPolicy(s, id))
    && (forall t {:trigger TicketWithinPolicy(s, t)} :: TicketWithinPolicy(s, t))
  }

  /** Manifests are immutable, and so is a run's agent. */
  ghost predicate SamePolicies(s: State, s': State) {
    && (forall a :: a in s.agents ==>
          && a in s'.agents && s'.agents[a].maximum == s.agents[a].maximum
          && s'.agents[a].maxDepth == s.agents[a].maxDepth)
    && (forall id :: id in s.runs ==> id in s'.runs && s'.runs[id].agent == s.runs[id].agent)
  }

  lemma NextKeepsPolicies(s: State, step: Step)
    ensures SamePolicies(s, Next(s, step))
  {
  }

  lemma OldRunKeepsPolicy(s: State, step: Step, id: Uuid)
    requires RunWithinPolicy(s, id) && id in s.runs
    ensures RunWithinPolicy(Next(s, step), id)
  {
    NextKeepsPolicies(s, step);
    var s' := Next(s, step);
    assert s'.runs[id].limits == s.runs[id].limits && s'.runs[id].parent == s.runs[id].parent
        && s'.runs[id].depth == s.runs[id].depth;
  }

  lemma OldTicketKeepsPolicy(s: State, step: Step, t: Ticket)
    requires TicketWithinPolicy(s, t) && t in s.tickets
    ensures TicketWithinPolicy(Next(s, step), t)
  {
    NextKeepsPolicies(s, step);
  }

  /** A run is added with the limits of its agent's manifest, or with those of the ticket that it was created from. */
  lemma NewRunWithinPolicy(s: State, step: Step, id: Uuid)
    requires PolicyInv(s) && id !in s.runs && id in Next(s, step).runs
    ensures RunWithinPolicy(Next(s, step), id)
  {
    NextKeepsPolicies(s, step);
    if step.Create? {
      assert TicketWithinPolicy(s, step.ticket);
    }
  }

  lemma NewTicketWithinPolicy(s: State, step: Step, t: Ticket)
    requires t !in s.tickets && t in Next(s, step).tickets
    ensures TicketWithinPolicy(Next(s, step), t)
  {
    if step.Check? {
      var maximum := s.agents[step.agent].maximum;
      forall name ensures Get(step.requested, name) <= Get(maximum, name) {
      }
    }
  }

  lemma NextKeepsPolicy(s: State, step: Step)
    requires PolicyInv(s)
    ensures PolicyInv(Next(s, step))
  {
    var s' := Next(s, step);
    forall id ensures RunWithinPolicy(s', id) {
      assert RunWithinPolicy(s, id);
      if id in s.runs {
        OldRunKeepsPolicy(s, step, id);
      } else if id in s'.runs {
        NewRunWithinPolicy(s, step, id);
      }
    }
    forall t ensures TicketWithinPolicy(s', t) {
      assert TicketWithinPolicy(s, t);
      if t in s.tickets {
        OldTicketKeepsPolicy(s, step, t);
      } else if t in s'.tickets {
        NewTicketWithinPolicy(s, step, t);
      }
    }
  }

  lemma {:induction false} AfterKeepsPolicy(s: State, schedule: seq<Step>)
    requires PolicyInv(s)
    ensures PolicyInv(After(s, schedule))
    decreases |schedule|
  {
    if schedule != [] {
      NextKeepsPolicy(s, schedule[0]);
      AfterKeepsPolicy(Next(s, schedule[0]), schedule[1..]);
    }
  }

  /** Over every interleaving: a delegated run is no deeper than its parent's manifest allows. */
  lemma DepthWithinManifest(schedule: seq<Step>, id: Uuid)
    requires id in After(INITIAL, schedule).runs && After(INITIAL, schedule).runs[id].parent.Some?
    ensures var s := After(INITIAL, schedule);
            var p := s.runs[id].parent.value;
            && p in s.runs && s.runs[p].agent in s.agents
            && s.runs[id].depth <= s.agents[s.runs[p].agent].maxDepth
  {
    AfterKeepsPolicy(INITIAL, schedule);
    assert RunWithinPolicy(After(INITIAL, schedule), id);
  }

  /** Over every interleaving: no run has a higher limit than its own agent's manifest. */
  lemma LimitsWithinManifest(schedule: seq<Step>, id: Uuid, name: string)
    requires id in After(INITIAL, schedule).runs
    ensures var s := After(INITIAL, schedule);
            && s.runs[id].agent in s.agents
            && Get(s.runs[id].limits, name) <= Get(s.agents[s.runs[id].agent].maximum, name)
  {
    AfterKeepsPolicy(INITIAL, schedule);
    assert RunWithinPolicy(After(INITIAL, schedule), id);
  }

  // ----- What a creation writes -----

  /** A creation takes effect exactly on an issued ticket, a fresh id, an unused key and a charge that fits. */
  lemma CreationTakesEffectIff(s: State, t: Ticket, id: Uuid)
    requires t in s.tickets ==> t.parent in s.runs && t.agent in s.agents
    ensures var s' := Next(s, Create(t, id));
            if && t in s.tickets && id !in s.runs && (forall x :: x in s.runs ==> s.runs[x].key != t.key)
               && Get(s.runs[t.parent].consumed, "child_agents") + 1 <= Get(s.runs[t.parent].limits, "child_agents")
               && Get(s.runs[t.parent].consumed, "steps") + 1 <= Get(s.runs[t.parent].limits, "steps")
            then
              && id in s'.runs
              && s'.runs[id] == Run(t.agent, Some(t.parent), t.root, t.depth, t.key,
                                    s.agents[t.agent].grants * t.tools, t.limits, map[], [], RunStatus.Pending)
              && s'.runs.Keys == s.runs.Keys + {id}
              && s'.runs[t.parent].children == s.runs[t.parent].children + [id]
              && s'.runs[t.parent].limits == s.runs[t.parent].limits
              && forall x :: x in s.runs && x != t.parent ==> s'.runs[x] == s.runs[x]
            else s' == s
  {
    TotalOfTwo(CHILD[0], CHILD[1]);
    assert CHILD[0] in CHILD && CHILD[1] in CHILD;
    if t in s.tickets && id !in s.runs {
      if KeyUsed(s.runs, t.key) {
        var x :| x in s.runs && s.runs[x].key == t.key;
      }
    }
  }

  /** A run that nobody delegated starts at depth zero with its agent's own tools and limits. */
  lemma RootTakesEffectIff(s: State, id: Uuid, agent: Uuid, key: string)
    ensures var s' := Next(s, StartRoot(id, agent, key));
            if id !in s.runs && agent in s.agents && (forall x :: x in s.runs ==> s.runs[x].key != key) then
              s' == s.(runs := s.runs[id := Run(agent, None, id, 0, key, s.agents[agent].grants,
                                                s.agents[agent].maximum, map[], [], RunStatus.Pending)])
            else s' == s
  {
  }

  /** A grant reaches the runs that start after it; the runs that exist keep their tools. */
  lemma GrantIsForLaterRuns(s: State, agent: Uuid, tool: Uuid, id: Uuid, key: string)
    requires agent in s.agents && id !in s.runs && forall x :: x in s.runs ==> s.runs[x].key != key
    ensures var t := Next(s, Grant(agent, tool));
            && t.runs == s.runs && t.tickets == s.tickets && t.agents.Keys == s.agents.Keys
            && Next(t, StartRoot(id, agent, key)).runs[id].tools == s.agents[agent].grants + {tool}
            && forall other :: other in s.agents && other != agent ==> t.agents[other] == s.agents[other]
  {
    RootTakesEffectIff(Next(s, Grant(agent, tool)), id, agent, key);
  }

  /** A registered version stays as it was first registered. */
  lemma ManifestsAreImmutable(s: State, agent: Uuid, row: Agent)
    ensures Next(s, Register(agent, row)) ==
              if agent in s.agents then s else s.(agents := s.agents[agent := row])
  {
  }

  /** A charge that fits moves the run's counters and nothing else; one that does not moves nothing. */
  lemma SpendTakesEffectIff(s: State, id: Uuid, charge: seq<Usage>, after: Counters)
    requires id in s.runs && WellFormed(charge) && Total(charge, "child_agents") == 0
    requires Charged(s.runs[id].consumed, after, charge)
    ensures var t := Next(s, Spend(id, charge, after));
            if forall u :: u in charge ==> Get(after, u.name) <= Get(s.runs[id].limits, u.name)
            then t == s.(runs := s.runs[id := s.runs[id].(consumed := after)])
            else t == s
  {
    assert forall u :: u in charge ==>
             Get(after, u.name) == Get(s.runs[id].consumed, u.name) + Total(charge, u.name);
  }
}
