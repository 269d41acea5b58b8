/**
 The cancellation sweep against delegations that go on around it. The sweep reads the delegation
 rows that exist when it runs; a ticket that was checked before it can still create a child after it.
 */
module DelegatedCancellation {
  import opened Base
  import opened RunStates
  import opened RuntimeState
  import opened Delegation
  import opened DelegationTree
  import CancellationSweep
  import FanOut = DelegationFanOut

  // ----- The sweep's reach is the subtree -----

  /** The delegation rows as the sweep queries them. */
  function Rows(runs: map<Uuid, Run>): CancellationSweep.Delegations {
    map id | id in runs :: set c | c in runs[id].children
  }

  lemma {:induction false} SubtreeIsReachable(s: State, root: Uuid, x: Uuid)
    requires TreeInv(s) && x in s.runs && root in Chain(s.runs, x)
    ensures CancellationSweep.Reachable(Rows(s.runs), root, x)
    decreases s.runs[x].depth
  {
    assert Linked(s.runs, x) && ChildrenInv(s, x);
    if x == root {
      CancellationSweep.ReachSelf(Rows(s.runs), root);
    } else {
      var p := s.runs[x].parent.value;
      SubtreeIsReachable(s, root, p);
      CancellationSweep.ReachStep(Rows(s.runs), root, p, x);
    }
  }

  /** What the level-by-level loop reaches over the rows is what descends from the run. */
  lemma ReachIsSubtree(s: State, root: Uuid, x: Uuid)
    requires TreeInv(s) && root in s.runs
    ensures CancellationSweep.Reachable(Rows(s.runs), root, x) <==> x in Subtree(s, root)
  {
    var rows, seen := Rows(s.runs), Subtree(s, root);
    forall id | id in seen ensures CancellationSweep.Children(rows, id) <= seen {
      assert ChildrenInv(s, id);
      forall c | c in CancellationSweep.Children(rows, id) ensures c in seen {
        assert Linked(s.runs, c);
        assert Chain(s.runs, c) == [c] + Chain(s.runs, id);
      }
    }
    CancellationSweep.ClosedHoldsReachable(rows, root, seen);
    if x in seen {
      SubtreeIsReachable(s, root, x);
    }
  }

  // ----- Sweep and delegation -----

  function SweptStatus(status: RunStatus): RunStatus {
    if Terminal(status) then status else Cancelled
  }

  /** What CancelOnboarding does to the statuses of a run that has not ended and of its subtree. */
  ghost function Sweep(s: State, root: Uuid): State
    requires Inv(s)
  {
    var reach := Subtree(s, root);
    s.(runs := map id | id in s.runs ::
         if id in reach then s.runs[id].(status := SweptStatus(s.runs[id].status)) else s.runs[id])
  }

  ghost predicate NoneLive(s: State, root: Uuid)
    requires Inv(s)
  {
    forall x :: x in Subtree(s, root) ==> s.runs[x].status !in {Pending, Running, Waiting}
  }

  /** The step brings a run of the subtree to life: a creation below it, or a restart of one that had ended. */
  ghost predicate Revives(s: State, root: Uuid, step: Step)
    requires Inv(s)
  {
    || (step.Create? && Creates(s, step.ticket, step.id) && step.ticket.parent in Subtree(s, root))
    || (step.Move? && step.run in Subtree(s, root) && s.runs[step.run].status != Cancelled
        && step.status in {Pending, Running, Waiting})
  }

  lemma SweepKeepsInv(s: State, root: Uuid)
    requires Inv(s)
    ensures var t := Sweep(s, root);
            && Inv(t) && Extends(s.runs, t.runs) && t.runs.Keys == s.runs.Keys && t.tickets == s.tickets
            && forall x :: x in t.runs ==> t.runs[x] == s.runs[x].(status := t.runs[x].status)
  {
    var t := Sweep(s, root);
    ForestGrows(s.runs, t.runs);
    GrowthKeepsInv(s, t);
    assert forall id :: id in t.runs ==> id in s.runs;
  }

  /** The sweep changes the statuses as the loop of CancelOnboarding does. */
  lemma SweepIsTheLoop(s: State, root: Uuid, x: Uuid)
    requires TreeInv(s) && root in s.runs && x in s.runs
    ensures Sweep(s, root).runs[x].status ==
            if CancellationSweep.Reachable(Rows(s.runs), root, x) && s.runs[x].status in {Pending, Running, Waiting}
            then Cancelled else s.runs[x].status
  {
    ReachIsSubtree(s, root, x);
  }

  lemma SweepLeavesNoneLive(s: State, root: Uuid)
    requires Inv(s)
    ensures Inv(Sweep(s, root)) && NoneLive(Sweep(s, root), root)
  {
    var t := Sweep(s, root);
    SweepKeepsInv(s, root);
    forall x | x in Subtree(t, root) ensures t.runs[x].status !in {Pending, Running, Waiting} {
      LineageIsStable(s.runs, t.runs, x);
      assert x in Subtree(s, root);
    }
  }

  lemma StepExtends(s: State, step: Step)
    requires Inv(s)
    ensures Inv(Next(s, step)) && Extends(s.runs, Next(s, step).runs)
  {
    NextKeepsInv(s, step);
  }

  /** Old runs keep their lineage, and only a move of the run itself changes its status. */
  lemma OldRunsOfStep(s: State, root: Uuid, step: Step, x: Uuid)
    requires Inv(s) && x in s.runs
    ensures Inv(Next(s, step)) && x in Next(s, step).runs
    ensures x in Subtree(Next(s, step), root) <==> x in Subtree(s, root)
    ensures Next(s, step).runs[x].status ==
              if step.Move? && step.run == x && s.runs[x].status != Cancelled then step.status else s.runs[x].status
  {
    StepExtends(s, step);
    LineageIsStable(s.runs, Next(s, step).runs, x);
  }

  /** A new run lies in the subtree exactly when its parent does. */
  lemma NewRunsOfStep(s: State, root: Uuid, step: Step, x: Uuid)
    requires Inv(s) && root in s.runs
    requires x in Next(s, step).runs && x !in s.runs
    ensures Inv(Next(s, step))
    ensures x in Subtree(Next(s, step), root) <==>
              step.Create? && Creates(s, step.ticket, step.id) && step.ticket.parent in Subtree(s, root)
    ensures Next(s, step).runs[x].status == Pending
  {
    StepExtends(s, step);
    var t := Next(s, step);
    assert Linked(t.runs, x);
    if step.Create? {
      LineageIsStable(s.runs, t.runs, step.ticket.parent);
      assert Chain(t.runs, x) == [x] + Chain(t.runs, step.ticket.parent);
    } else {
      assert Chain(t.runs, x) == [x];
    }
  }

  lemma RevivingStepLeavesLive(s: State, root: Uuid, step: Step)
    requires Inv(s) && root in s.runs && Revives(s, root, step)
    ensures Inv(Next(s, step)) && !NoneLive(Next(s, step), root)
  {
    StepExtends(s, step);
    var t := Next(s, step);
    if step.Create? {
      assert t.runs == CreateChild(s, step.ticket, step.id).runs;
      NewRunsOfStep(s, root, step, step.id);
      assert step.id in Subtree(t, root);
    } else {
      OldRunsOfStep(s, root, step, step.run);
      assert step.run in Subtree(t, root);
    }
  }

  /** A step keeps a subtree without a live run exactly when it does not revive one. */
  lemma StepKeepsNoneLiveIff(s: State, root: Uuid, step: Step)
    requires Inv(s) && root in s.runs && NoneLive(s, root)
    ensures Inv(Next(s, step))
    ensures NoneLive(Next(s, step), root) <==> !Revives(s, root, step)
  {
    StepExtends(s, step);
    var t := Next(s, step);
    if Revives(s, root, step) {
      RevivingStepLeavesLive(s, root, step);
    } else {
      forall x | x in Subtree(t, root) ensures t.runs[x].status !in {Pending, Running, Waiting} {
        if x in s.runs {
          OldRunsOfStep(s, root, step, x);
        } else {
          NewRunsOfStep(s, root, step, x);
        }
      }
    }
  }

  ghost predicate NeverLive(s: State, root: Uuid, schedule: seq<Step>)
    requires Inv(s)
    decreases |schedule|
  {
    NextKeepsInvAll(s);
    NoneLive(s, root) && (schedule == [] || NeverLive(Next(s, schedule[0]), root, schedule[1..]))
  }

  ghost predicate NeverRevived(s: State, root: Uuid, schedule: seq<Step>)
    requires Inv(s)
    decreases |schedule|
  {
    NextKeepsInvAll(s);
    schedule == [] || (!Revives(s, root, schedule[0]) && NeverRevived(Next(s, schedule[0]), root, schedule[1..]))
  }

  lemma NextKeepsInvAll(s: State)
    requires Inv(s)
    ensures forall step :: Inv(Next(s, step))
  {
    forall step ensures Inv(Next(s, step)) {
      NextKeepsInv(s, step);
    }
  }

  lemma {:induction false} NoneLiveFrom(s: State, root: Uuid, schedule: seq<Step>)
    requires Inv(s) && root in s.runs && NoneLive(s, root)
    ensures NeverLive(s, root, schedule) <==> NeverRevived(s, root, schedule)
    decreases |schedule|
  {
    if schedule != [] {
      StepKeepsNoneLiveIff(s, root, schedule[0]);
      StepExtends(s, schedule[0]);
      var t := Next(s, schedule[0]);
      if NoneLive(t, root) {
        NoneLiveFrom(t, root, schedule[1..]);
      }
    }
  }

  /**
   After a sweep no run below the cancelled one is ever live exactly when no later step creates a
   child below it or restarts a descendant that the sweep found ended.
   */
  lemma SweepIsFinalIff(before: seq<Step>, root: Uuid, later: seq<Step>)
    requires root in After(INITIAL, before).runs
    requires After(INITIAL, before).runs[root].status in {Pending, Running, Waiting}
    ensures var s := After(INITIAL, before);
            Inv(s) && Inv(Sweep(s, root)) &&
            (NeverLive(Sweep(s, root), root, later) <==> NeverRevived(Sweep(s, root), root, later))
  {
    AfterKeepsTree(INITIAL, before);
    var s := After(INITIAL, before);
    SweepLeavesNoneLive(s, root);
    NoneLiveFrom(Sweep(s, root), root, later);
  }

  // ----- Only tickets from before the sweep -----

  /** Cancelled parents stay cancelled, and every ticket of theirs is one of those that were out already. */
  ghost predicate OnlyOldTickets(s: State, t: State) {
    && (forall id :: id in s.runs && s.runs[id].status == Cancelled ==>
          id in t.runs && t.runs[id].status == Cancelled)
    && (forall u :: u in t.tickets && u.parent in s.runs && s.runs[u.parent].status == Cancelled ==> u in s.tickets)
  }

  lemma StepKeepsOldTickets(s: State, t: State, step: Step)
    requires OnlyOldTickets(s, t)
    ensures OnlyOldTickets(s, Next(t, step))
  {
  }

  lemma {:induction false} OldTicketsFrom(s: State, t: State, later: seq<Step>)
    requires OnlyOldTickets(s, t)
    ensures OnlyOldTickets(s, After(t, later))
    decreases |later|
  {
    if later != [] {
      StepKeepsOldTickets(s, t, later[0]);
      OldTicketsFrom(s, Next(t, later[0]), later[1..]);
    }
  }

  /** A child that appears below a run that the sweep cancelled was checked before the sweep. */
  lemma LateChildrenWereCheckedBefore(before: seq<Step>, root: Uuid, later: seq<Step>)
    ensures var s := After(INITIAL, before);
            Inv(s) &&
            var t := Sweep(s, root);
            forall ticket, id ::
              && Creates(After(t, later), ticket, id)
              && ticket.parent in t.runs && t.runs[ticket.parent].status == Cancelled
              ==> ticket in s.tickets
  {
    AfterKeepsTree(INITIAL, before);
    var t := Sweep(After(INITIAL, before), root);
    OldTicketsFrom(t, t, later);
  }

  lemma OneCheckDone()
    ensures After(INITIAL, FanOut.Preparation() + [FanOut.Interleaved()[0]])
         == FanOut.Prepared().(tickets := {FanOut.BothTickets()[0]})
  {
    var p, check := FanOut.Preparation(), FanOut.Interleaved()[0];
    FanOut.AfterConcat(INITIAL, p, [check]);
    FanOut.AfterFour(INITIAL, p[0], p[1], p[2], p[3]);
    assert p == [p[0], p[1], p[2], p[3]] && After(INITIAL, p) == FanOut.Prepared();
    assert After(FanOut.Prepared(), [check]) == Next(FanOut.Prepared(), check);
    FanOut.BothChecksPass();
  }

  /** A check, the sweep, then the creation: the child is live below a cancelled parent. */
  lemma LateChildIsLive()
    ensures var s := After(INITIAL, FanOut.Preparation() + [FanOut.Interleaved()[0]]);
            && Inv(s) && 0 in s.runs && s.runs[0].status in {Pending, Running, Waiting} && Inv(Sweep(s, 0))
            && 0 in Sweep(s, 0).runs && Sweep(s, 0).runs[0].status == Cancelled
            && !NeverLive(Sweep(s, 0), 0, [Create(FanOut.BothTickets()[0], 1)])
  {
    var before := FanOut.Preparation() + [FanOut.Interleaved()[0]];
    var s := After(INITIAL, before);
    OneCheckDone();
    AfterKeepsTree(INITIAL, before);
    SweepKeepsInv(s, 0);
    var t := Sweep(s, 0);
    assert 0 in Subtree(s, 0) && 0 in Subtree(t, 0);
    TotalOfTwo(CHILD[0], CHILD[1]);
    assert Creates(t, FanOut.BothTickets()[0], 1);
    assert !NeverRevived(t, 0, [Create(FanOut.BothTickets()[0], 1)]);
    SweepIsFinalIff(before, 0, [Create(FanOut.BothTickets()[0], 1)]);
  }
}
