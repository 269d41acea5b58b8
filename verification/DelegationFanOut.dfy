/**
 The fan-out limit of a manifest. The check compares it with the children that exist at that
 moment; the creation that follows in its own transaction does not compare it again.
 */
module DelegationFanOut {
  import opened Base
  import opened RunStates
  import opened RuntimeState
  import opened Delegation
  import opened DelegationTree

  ghost predicate WithinFanOut(s: State, id: Uuid) {
    id in s.runs && s.runs[id].agent in s.agents ==>
      |s.runs[id].children| <= s.agents[s.runs[id].agent].maxFanOut
  }

  ghost predicate FanOutKept(s: State) {
    forall id {:trigger WithinFanOut(s, id)} :: WithinFanOut(s, id)
  }

  /** A creation that takes effect finds its parent below the limit. */
  ghost predicate HasRoom(s: State, step: Step) {
    step.Create? && Creates(s, step.ticket, step.id) && s.runs[step.ticket.parent].agent in s.agents ==>
      |s.runs[step.ticket.parent].children| < s.agents[s.runs[step.ticket.parent].agent].maxFanOut
  }

  ghost predicate AlwaysRoom(s: State, schedule: seq<Step>)
    decreases |schedule|
  {
    schedule == [] || (HasRoom(s, schedule[0]) && AlwaysRoom(Next(s, schedule[0]), schedule[1..]))
  }

  /** No step changes an agent's limit or a run's agent, nor takes a child away. */
  ghost predicate FanOutGrows(s: State, t: State, id: Uuid) {
    id in s.runs && s.runs[id].agent in s.agents ==>
      && id in t.runs && t.runs[id].agent == s.runs[id].agent && s.runs[id].agent in t.agents
      && t.agents[s.runs[id].agent].maxFanOut == s.agents[s.runs[id].agent].maxFanOut
      && |s.runs[id].children| <= |t.runs[id].children|
  }

  lemma NextGrows(s: State, step: Step, id: Uuid)
    ensures FanOutGrows(s, Next(s, step), id)
  {
  }

  lemma {:induction false} AfterGrows(s: State, schedule: seq<Step>, id: Uuid)
    ensures FanOutGrows(s, After(s, schedule), id)
    decreases |schedule|
  {
    if schedule != [] {
      NextGrows(s, schedule[0], id);
      AfterGrows(Next(s, schedule[0]), schedule[1..], id);
    }
  }

  lemma StepKeepsFanOut(s: State, step: Step)
    requires TreeInv(s) && FanOutKept(s)
    ensures FanOutKept(Next(s, step)) <==> HasRoom(s, step)
  {
    var t := Next(s, step);
    forall id | !(step.Create? && t != s && id == step.ticket.parent) ensures WithinFanOut(t, id) {
      assert WithinFanOut(s, id);
      if id in s.runs {
        assert RunInv(s, id);
      }
    }
    if step.Create? && t != s {
      assert TicketInv(s, step.ticket) && RunInv(s, step.ticket.parent);
      assert WithinFanOut(t, step.ticket.parent) <==> HasRoom(s, step);
    }
  }

  lemma {:induction false} FanOutFrom(s: State, schedule: seq<Step>)
    requires TreeInv(s) && FanOutKept(s)
    ensures FanOutKept(After(s, schedule)) <==> AlwaysRoom(s, schedule)
    decreases |schedule|
  {
    if schedule != [] {
      var t := Next(s, schedule[0]);
      NextKeepsTree(s, schedule[0]);
      StepKeepsFanOut(s, schedule[0]);
      if HasRoom(s, schedule[0]) {
        FanOutFrom(t, schedule[1..]);
      } else {
        var id :| !WithinFanOut(t, id);
        AfterGrows(t, schedule[1..], id);
        assert !WithinFanOut(After(t, schedule[1..]), id);
      }
    }
  }

  /** A history keeps every fan-out exactly when each of its creations still found room. */
  lemma FanOutKeptIff(schedule: seq<Step>)
    ensures FanOutKept(After(INITIAL, schedule)) <==> AlwaysRoom(INITIAL, schedule)
  {
    FanOutFrom(INITIAL, schedule);
  }

  // ----- One child at a time is enough -----

  ghost predicate SeenRoom(s: State, t: Ticket) {
    && t.parent in s.runs && s.runs[t.parent].agent in s.agents
    && t.seen < s.agents[s.runs[t.parent].agent].maxFanOut
  }

  lemma NextKeepsSeen(s: State, step: Step)
    requires Inv(s)
    requires forall t {:trigger SeenRoom(s, t)} :: t in s.tickets ==> SeenRoom(s, t)
    ensures forall t {:trigger SeenRoom(Next(s, step), t)} :: t in Next(s, step).tickets ==> SeenRoom(Next(s, step), t)
  {
    var s' := Next(s, step);
    forall t | t in s'.tickets ensures SeenRoom(s', t) {
      if t in s.tickets {
        assert SeenRoom(s, t);
        NextGrows(s, step, t.parent);
      }
    }
  }

  lemma {:induction false} OneAtATimeHasRoom(s: State, schedule: seq<Step>)
    requires Inv(s) && OneAtATime(s, schedule)
    requires forall t {:trigger SeenRoom(s, t)} :: t in s.tickets ==> SeenRoom(s, t)
    ensures AlwaysRoom(s, schedule)
    decreases |schedule|
  {
    if schedule != [] {
      if schedule[0].Create? && schedule[0].ticket in s.tickets {
        assert SeenRoom(s, schedule[0].ticket);
      }
      NextKeepsInv(s, schedule[0]);
      NextKeepsSeen(s, schedule[0]);
      OneAtATimeHasRoom(Next(s, schedule[0]), schedule[1..]);
    }
  }

  lemma OneAtATimeKeepsFanOut(schedule: seq<Step>)
    requires OneAtATime(INITIAL, schedule)
    ensures FanOutKept(After(INITIAL, schedule))
  {
    OneAtATimeHasRoom(INITIAL, schedule);
    FanOutKeptIff(schedule);
  }

  // ----- Interleaved checks are not -----

  const LIMITS: Counters := map["child_agents" := 2, "steps" := 2]
  const NARROW := Agent({}, LIMITS, 1, 1)

  function BothTickets(): seq<Ticket> {
    [Ticket(0, 1, 0, 1, "first", {}, map[], 0), Ticket(0, 2, 0, 1, "second", {}, map[], 0)]
  }

  /** One run of agent 0 before it has delegated anything. */
  function Prepared(): State {
    State(map[0 := NARROW, 1 := NARROW, 2 := NARROW],
          map[0 := Run(0, None, 0, 0, "root", {}, LIMITS, map[], [], RunStatus.Pending)], {})
  }

  function Interleaved(): seq<Step> {
    [Check(0, 1, map[], 1, "first"), Check(0, 2, map[], 1, "second"),
     Create(BothTickets()[0], 1), Create(BothTickets()[1], 2)]
  }

  function Preparation(): seq<Step> {
    [Register(0, NARROW), Register(1, NARROW), Register(2, NARROW), StartRoot(0, 0, "root")]
  }

  lemma {:induction false} AfterConcat(s: State, first: seq<Step>, second: seq<Step>)
    ensures After(s, first + second) == After(After(s, first), second)
    decreases |first|
  {
    if first == [] {
      assert first + second == second;
    } else {
      assert (first + second)[1..] == first[1..] + second;
      AfterConcat(Next(s, first[0]), first[1..], second);
    }
  }

  lemma AfterFour(s: State, a: Step, b: Step, c: Step, d: Step)
    ensures After(s, [a, b, c, d]) == Next(Next(Next(Next(s, a), b), c), d)
  {
    var s1 := Next(s, a);
    var s2 := Next(s1, b);
    assert [a, b, c, d][1..] == [b, c, d] && [b, c, d][1..] == [c, d] && [c, d][1..] == [d];
    var s3 := Next(s2, c);
    assert [d][1..] == [];
    assert After(s3, [d]) == After(Next(s3, d), []);
    assert After(s2, [c, d]) == After(s3, [d]);
    assert After(s1, [b, c, d]) == After(s2, [c, d]);
  }

  lemma BothChecksPass()
    ensures var s := Prepared();
            var t := Next(s, Interleaved()[0]);
            && t == s.(tickets := {BothTickets()[0]})
            && Next(t, Interleaved()[1]) == s.(tickets := {BothTickets()[0], BothTickets()[1]})
  {
    var s := Prepared();
    assert Forest(s.runs) by {
      assert Linked(s.runs, 0);
    }
    assert AgentsAbove(s.runs, 0) == {0};
    assert CheckPasses(s, Interleaved()[0]);
    var t := Next(s, Interleaved()[0]);
    assert t.tickets == {BothTickets()[0]};
    assert CheckPasses(t, Interleaved()[1]);
  }

  lemma BothChildrenAreCreated(s: State)
    requires s == Prepared().(tickets := {BothTickets()[0], BothTickets()[1]})
    ensures var t := Next(Next(s, Interleaved()[2]), Interleaved()[3]);
            0 in t.runs && t.runs[0].children == [1, 2] && t.runs[0].agent == 0
            && t.agents == Prepared().agents
  {
    TotalOfTwo(CHILD[0], CHILD[1]);
    var t := Next(s, Interleaved()[2]);
    assert t.runs[0] == Paid(s.runs[0], 1);
    assert Get(t.runs[0].consumed, "child_agents") == 1 && Get(t.runs[0].consumed, "steps") == 1;
  }

  /** Two checks, then two creations: a manifest that allows one child gets two. */
  lemma InterleavedChecksExceedFanOut()
    ensures var s := After(INITIAL, Preparation() + Interleaved());
            && 0 in s.runs && s.runs[0].agent in s.agents
            && s.agents[s.runs[0].agent].maxFanOut == 1 && |s.runs[0].children| == 2
  {
    var p, i := Preparation(), Interleaved();
    AfterConcat(INITIAL, p, i);
    AfterFour(INITIAL, p[0], p[1], p[2], p[3]);
    assert p == [p[0], p[1], p[2], p[3]] && i == [i[0], i[1], i[2], i[3]];
    assert After(INITIAL, p) == Prepared();
    AfterFour(Prepared(), i[0], i[1], i[2], i[3]);
    BothChecksPass();
    BothChildrenAreCreated(Prepared().(tickets := {BothTickets()[0], BothTickets()[1]}));
  }
}
