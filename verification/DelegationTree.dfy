/** How many runs one managed run can bring about by delegating, and its descendants by delegating further. */
module DelegationTree {
  import opened Base
  import opened RuntimeState
  import opened Delegation

  function ChildLimit(run: Run): nat {
    Get(run.limits, "child_agents")
  }

  // ----- The tree invariant: every child is on its parent's list, and the list is paid for -----

  ghost predicate ChildrenInv(s: State, id: Uuid)
    requires id in s.runs
  {
    var run := s.runs[id];
    && |run.children| == Get(run.consumed, "child_agents") <= ChildLimit(run)
    && NoDuplicates(run.children)
    && (forall j :: 0 <= j < |run.children| ==>
          run.children[j] in s.runs && s.runs[run.children[j]].parent == Some(id))
    && (run.parent.Some? ==> run.parent.value in s.runs && id in s.runs[run.parent.value].children)
  }

  ghost predicate TicketCarved(s: State, t: Ticket) {
    t.parent in s.runs ==>
      && t.seen <= |s.runs[t.parent].children|
      && Get(t.limits, "child_agents") + t.seen <= ChildLimit(s.runs[t.parent])
  }

  ghost predicate TreeInv(s: State) {
    && Inv(s)
    && (forall id {:trigger ChildrenInv(s, id)} :: id in s.runs ==> ChildrenInv(s, id))
    && (forall t {:trigger TicketCarved(s, t)} :: t in s.tickets ==> TicketCarved(s, t))
  }

  /** The child at position j was carved out of what the j earlier children had left. */
  ghost predicate CarvedAt(s: State, id: Uuid, j: nat) {
    id in s.runs && j < |s.runs[id].children| && s.runs[id].children[j] in s.runs ==>
      ChildLimit(s.runs[s.runs[id].children[j]]) + j <= ChildLimit(s.runs[id])
  }

  ghost predicate Carved(s: State) {
    forall id: Uuid, j: nat {:trigger CarvedAt(s, id, j)} :: CarvedAt(s, id, j)
  }

  /** Each parent delegates one child at a time: nothing is created between a check and its creation. */
  ghost predicate InTurn(s: State, step: Step) {
    step.Create? && Creates(s, step.ticket, step.id) ==>
      step.ticket.seen == |s.runs[step.ticket.parent].children|
  }

  ghost predicate OneAtATime(s: State, schedule: seq<Step>)
    decreases |schedule|
  {
    schedule == [] || (InTurn(s, schedule[0]) && OneAtATime(Next(s, schedule[0]), schedule[1..]))
  }

  lemma CheckKeepsTree(s: State, step: Step)
    requires TreeInv(s) && step.Check?
    ensures TreeInv(Next(s, step))
  {
    NextKeepsInv(s, step);
    var s' := Next(s, step);
    forall id | id in s'.runs ensures ChildrenInv(s', id) {
      assert ChildrenInv(s, id);
    }
    forall t | t in s'.tickets ensures TicketCarved(s', t) {
      if t in s.tickets {
        assert TicketCarved(s, t);
      } else {
        assert ChildrenInv(s, step.parent);
      }
    }
  }

  lemma ChildlessStepKeepsTree(s: State, step: Step)
    requires TreeInv(s) && !step.Check? && !step.Create?
    ensures TreeInv(Next(s, step))
  {
    NextKeepsInv(s, step);
    var s' := Next(s, step);
    forall id | id in s'.runs ensures ChildrenInv(s', id) {
      if id in s.runs {
        assert ChildrenInv(s, id);
      }
    }
    forall t | t in s'.tickets ensures TicketCarved(s', t) {
      assert TicketCarved(s, t) && TicketInv(s, t);
    }
  }

  lemma CreateKeepsTree(s: State, t: Ticket, id: Uuid)
    requires TreeInv(s) && t in s.tickets && id !in s.runs
    ensures TreeInv(CreateChild(s, t, id))
  {
    CreateKeepsInv(s, t, id);
    var s' := CreateChild(s, t, id);
    if s' != s {
      assert ChildrenInv(s, t.parent) && CHILD[0] in CHILD;
      TotalOfTwo(CHILD[0], CHILD[1]);
      forall i | i in s'.runs ensures ChildrenInv(s', i) {
        if i in s.runs {
          assert ChildrenInv(s, i);
        }
      }
      forall u | u in s'.tickets ensures TicketCarved(s', u) {
        assert TicketCarved(s, u) && TicketInv(s, u);
      }
    }
  }

  lemma NextKeepsTree(s: State, step: Step)
    requires TreeInv(s)
    ensures TreeInv(Next(s, step))
  {
    match step {
      case Check(_, _, _, _, _) => CheckKeepsTree(s, step);
      case Create(t, id) =>
        if t in s.tickets && id !in s.runs {
          CreateKeepsTree(s, t, id);
        }
      case _ => ChildlessStepKeepsTree(s, step);
    }
  }

  lemma NextKeepsCarved(s: State, step: Step)
    requires TreeInv(s) && Carved(s) && InTurn(s, step)
    ensures Carved(Next(s, step))
  {
    var s' := Next(s, step);
    forall id: Uuid, j: nat ensures CarvedAt(s', id, j) {
      assert CarvedAt(s, id, j);
      if id in s.runs {
        assert ChildrenInv(s, id);
      }
      if step.Create? && s' != s {
        assert TicketCarved(s, step.ticket) && TicketInv(s, step.ticket);
      }
    }
  }

  lemma {:induction false} AfterKeepsTree(s: State, schedule: seq<Step>)
    requires TreeInv(s)
    ensures TreeInv(After(s, schedule))
    ensures Carved(s) && OneAtATime(s, schedule) ==> Carved(After(s, schedule))
    decreases |schedule|
  {
    if schedule != [] {
      NextKeepsTree(s, schedule[0]);
      if Carved(s) && OneAtATime(s, schedule) {
        NextKeepsCarved(s, schedule[0]);
      }
      AfterKeepsTree(Next(s, schedule[0]), schedule[1..]);
    }
  }

  // ----- Subtrees -----

  /** The runs whose lineage passes through the given run, itself included. */
  ghost function Subtree(s: State, root: Uuid): set<Uuid>
    requires Inv(s)
  {
    set x | x in s.runs && root in Chain(s.runs, x)
  }

  ghost function Subtrees(s: State, roots: seq<Uuid>): set<Uuid>
    requires Inv(s)
  {
    if roots == [] then {} else Subtrees(s, roots[..|roots| - 1]) + Subtree(s, roots[|roots| - 1])
  }

  /** A proper descendant descends from one of the children. */
  lemma {:induction false} DescendsThroughChild(s: State, root: Uuid, x: Uuid) returns (j: nat)
    requires TreeInv(s) && root in s.runs && x in Subtree(s, root) && x != root
    ensures j < |s.runs[root].children| && x in Subtree(s, s.runs[root].children[j])
    decreases s.runs[x].depth
  {
    assert ChildrenInv(s, x) && Linked(s.runs, x);
    var p := s.runs[x].parent.value;
    if p == root {
      j :| 0 <= j < |s.runs[root].children| && s.runs[root].children[j] == x;
    } else {
      j := DescendsThroughChild(s, root, p);
    }
  }

  lemma {:induction false} InSubtrees(s: State, roots: seq<Uuid>, j: nat, x: Uuid)
    requires Inv(s) && j < |roots| && x in Subtree(s, roots[j])
    ensures x in Subtrees(s, roots)
  {
    if j < |roots| - 1 {
      InSubtrees(s, roots[..|roots| - 1], j, x);
    }
  }

  lemma SubtreeCover(s: State, root: Uuid)
    requires TreeInv(s) && root in s.runs
    ensures Subtree(s, root) <= {root} + Subtrees(s, s.runs[root].children)
  {
    forall x | x in Subtree(s, root) && x != root ensures x in Subtrees(s, s.runs[root].children) {
      var j := DescendsThroughChild(s, root, x);
      InSubtrees(s, s.runs[root].children, j, x);
    }
  }

  lemma {:induction false} UnionCardinality<T>(a: set<T>, b: set<T>)
    ensures |a + b| <= |a| + |b|
  {
    assert a + b == a + (b - a);
    SubsetCardinality(b - a, b);
  }

  // ----- Binomial coefficients -----

  function Binomial(n: nat, k: nat): nat {
    if k == 0 then 1 else if n == 0 then 0 else Binomial(n - 1, k - 1) + Binomial(n - 1, k)
  }

  lemma {:induction false} BinomialPositive(n: nat, k: nat)
    requires k <= n
    ensures Binomial(n, k) >= 1
  {
    if k > 0 {
      BinomialPositive(n - 1, k - 1);
    }
  }

  lemma {:induction false} BinomialMonotone(m: nat, n: nat, k: nat)
    requires m <= n
    ensures Binomial(m, k) <= Binomial(n, k)
    decreases n
  {
    if m < n {
      BinomialMonotone(m, n - 1, k);
    }
  }

  /** What child j can bring, with at most c - j left to give and one level less. */
  function Share(c: nat, d: nat, j: nat): nat
    requires j < c && d >= 1
  {
    Binomial(c - j + d - 1, d - 1)
  }

  function CarvedSum(c: nat, d: nat, n: nat): nat
    requires n <= c && d >= 1
  {
    if n == 0 then 0 else CarvedSum(c, d, n - 1) + Share(c, d, n - 1)
  }

  lemma CarvedSumStep(c: nat, d: nat, n: nat, before: nat, last: nat)
    requires 0 < n <= c && d >= 1
    requires before <= CarvedSum(c, d, n - 1) && last <= Share(c, d, n - 1)
    ensures before + last <= CarvedSum(c, d, n)
  {
  }

  lemma {:induction false} CarvedSumTelescopes(c: nat, d: nat, n: nat)
    requires n <= c && d >= 1
    ensures CarvedSum(c, d, n) + Binomial(c - n + d, d) == Binomial(c + d, d)
  {
    if n > 0 {
      CarvedSumTelescopes(c, d, n - 1);
    }
  }

  lemma CarvedSumBound(c: nat, d: nat, n: nat, below: nat)
    requires n <= c && d >= 1 && below <= CarvedSum(c, d, n)
    ensures 1 + below <= Binomial(c + d, d)
  {
    CarvedSumTelescopes(c, d, n);
    BinomialPositive(c - n + d, d);
  }

  /** One plus c times the bound one level down: what any interleaving can bring. */
  function GeometricSum(c: nat, d: nat): nat {
    if d == 0 then 1 else 1 + c * GeometricSum(c, d - 1)
  }

  function Power(c: nat, i: nat): nat {
    if i == 0 then 1 else c * Power(c, i - 1)
  }

  function PowerSum(c: nat, d: nat): nat {
    if d == 0 then 1 else PowerSum(c, d - 1) + Power(c, d)
  }

  lemma {:induction false} PowerSumShifts(c: nat, d: nat)
    requires d >= 1
    ensures PowerSum(c, d) == 1 + c * PowerSum(c, d - 1)
  {
    if d == 1 {
      assert Power(c, 1) == c * Power(c, 0);
    } else {
      PowerSumShifts(c, d - 1);
      Distribute(c, PowerSum(c, d - 2), Power(c, d - 1));
    }
  }

  lemma Distribute(c: nat, x: nat, y: nat)
    ensures c * (x + y) == c * x + c * y
  {
  }

  lemma {:induction false} GeometricSumIsPowerSum(c: nat, d: nat)
    ensures GeometricSum(c, d) == PowerSum(c, d)
  {
    if d > 0 {
      GeometricSumIsPowerSum(c, d - 1);
      PowerSumShifts(c, d);
    }
  }

  lemma {:induction false} GeometricMonotone(b: nat, c: nat, d: nat)
    requires b <= c
    ensures GeometricSum(b, d) <= GeometricSum(c, d)
  {
    if d > 0 {
      GeometricMonotone(b, c, d - 1);
      TimesMonotone(b, c, GeometricSum(b, d - 1), GeometricSum(c, d - 1));
    }
  }

  // ----- The bounds on reachable trees -----

  lemma ChildFacts(s: State, id: Uuid, j: nat)
    requires TreeInv(s) && id in s.runs && j < |s.runs[id].children|
    ensures var kid := s.runs[id].children[j];
            && kid in s.runs && s.runs[kid].depth == s.runs[id].depth + 1 <= MAXIMUM_DEPTH
            && ChildLimit(s.runs[kid]) <= ChildLimit(s.runs[id]) && j < ChildLimit(s.runs[id])
            && (Carved(s) ==> ChildLimit(s.runs[kid]) + j <= ChildLimit(s.runs[id]))
  {
    assert ChildrenInv(s, id);
    var kid := s.runs[id].children[j];
    assert RunInv(s, kid) && Linked(s.runs, kid);
    assert CarvedAt(s, id, j) || !Carved(s);
  }

  /** A subtree is no larger than the run and its children's subtrees together. */
  lemma SubtreeSize(s: State, id: Uuid)
    requires TreeInv(s) && id in s.runs
    ensures |Subtree(s, id)| <= 1 + |Subtrees(s, s.runs[id].children)|
    ensures |s.runs[id].children| <= ChildLimit(s.runs[id])
    ensures s.runs[id].depth == MAXIMUM_DEPTH ==> s.runs[id].children == []
  {
    assert ChildrenInv(s, id);
    SubtreeCover(s, id);
    SubsetCardinality(Subtree(s, id), {id} + Subtrees(s, s.runs[id].children));
    UnionCardinality({id}, Subtrees(s, s.runs[id].children));
    if s.runs[id].children != [] {
      ChildFacts(s, id, 0);
    }
  }

  lemma SubtreesSize(s: State, roots: seq<Uuid>, n: nat)
    requires Inv(s) && 0 < n <= |roots|
    ensures |Subtrees(s, roots[..n])| <= |Subtrees(s, roots[..n - 1])| + |Subtree(s, roots[n - 1])|
  {
    assert roots[..n][..n - 1] == roots[..n - 1];
    UnionCardinality(Subtrees(s, roots[..n - 1]), Subtree(s, roots[n - 1]));
  }

  lemma TimesMonotone(a: nat, b: nat, x: nat, y: nat)
    requires a <= b && x <= y
    ensures a * x <= b * y
  {
    assert a * x <= b * x <= b * y;
  }

  lemma {:induction false} CarvedSubtreeBound(s: State, id: Uuid)
    requires TreeInv(s) && Carved(s) && id in s.runs && s.runs[id].depth <= MAXIMUM_DEPTH
    ensures var c, d := ChildLimit(s.runs[id]), MAXIMUM_DEPTH - s.runs[id].depth;
            |Subtree(s, id)| <= Binomial(c + d, d)
    decreases MAXIMUM_DEPTH - s.runs[id].depth, |s.runs[id].children| + 2
  {
    var c, d := ChildLimit(s.runs[id]), MAXIMUM_DEPTH - s.runs[id].depth;
    var kids := s.runs[id].children;
    SubtreeSize(s, id);
    if d == 0 {
      assert |Subtree(s, id)| <= 1 + |Subtrees(s, [])|;
    } else {
      assert kids[..|kids|] == kids;
      CarvedChildrenBound(s, id, |kids|);
      CarvedSumBound(c, d, |kids|, |Subtrees(s, kids)|);
    }
  }

  lemma {:induction false} CarvedChildrenBound(s: State, id: Uuid, n: nat)
    requires TreeInv(s) && Carved(s) && id in s.runs && s.runs[id].depth < MAXIMUM_DEPTH
    requires n <= |s.runs[id].children| && n <= ChildLimit(s.runs[id])
    ensures |Subtrees(s, s.runs[id].children[..n])|
            <= CarvedSum(ChildLimit(s.runs[id]), MAXIMUM_DEPTH - s.runs[id].depth, n)
    decreases MAXIMUM_DEPTH - s.runs[id].depth, n + 1
  {
    var kids := s.runs[id].children;
    if n == 0 {
      assert kids[..0] == [];
    } else {
      var c, d := ChildLimit(s.runs[id]), MAXIMUM_DEPTH - s.runs[id].depth;
      CarvedChildrenBound(s, id, n - 1);
      CarvedChildBound(s, id, n - 1);
      SubtreesSize(s, kids, n);
      CarvedSumStep(c, d, n, |Subtrees(s, kids[..n - 1])|, |Subtree(s, kids[n - 1])|);
    }
  }

  lemma {:induction false} CarvedChildBound(s: State, id: Uuid, j: nat)
    requires TreeInv(s) && Carved(s) && id in s.runs && s.runs[id].depth < MAXIMUM_DEPTH
    requires j < |s.runs[id].children| && j < ChildLimit(s.runs[id])
    ensures |Subtree(s, s.runs[id].children[j])|
            <= Share(ChildLimit(s.runs[id]), MAXIMUM_DEPTH - s.runs[id].depth, j)
    decreases MAXIMUM_DEPTH - s.runs[id].depth, 0
  {
    var c, d := ChildLimit(s.runs[id]), MAXIMUM_DEPTH - s.runs[id].depth;
    var kid := s.runs[id].children[j];
    ChildFacts(s, id, j);
    CarvedSubtreeBound(s, kid);
    BinomialMonotone(ChildLimit(s.runs[kid]) + d - 1, c - j + d - 1, d - 1);
  }

  lemma {:induction false} AnySubtreeBound(s: State, id: Uuid)
    requires TreeInv(s) && id in s.runs && s.runs[id].depth <= MAXIMUM_DEPTH
    ensures |Subtree(s, id)| <= GeometricSum(ChildLimit(s.runs[id]), MAXIMUM_DEPTH - s.runs[id].depth)
    decreases MAXIMUM_DEPTH - s.runs[id].depth, |s.runs[id].children| + 2
  {
    var c, d := ChildLimit(s.runs[id]), MAXIMUM_DEPTH - s.runs[id].depth;
    var kids := s.runs[id].children;
    SubtreeSize(s, id);
    if d > 0 {
      AnyChildrenBound(s, id, |kids|);
      assert kids[..|kids|] == kids;
      TimesMonotone(|kids|, c, GeometricSum(c, d - 1), GeometricSum(c, d - 1));
    }
  }

  lemma {:induction false} AnyChildrenBound(s: State, id: Uuid, n: nat)
    requires TreeInv(s) && id in s.runs && s.runs[id].depth < MAXIMUM_DEPTH && n <= |s.runs[id].children|
    ensures |Subtrees(s, s.runs[id].children[..n])|
            <= n * GeometricSum(ChildLimit(s.runs[id]), MAXIMUM_DEPTH - s.runs[id].depth - 1)
    decreases MAXIMUM_DEPTH - s.runs[id].depth, n + 1
  {
    if n > 0 {
      AnyChildrenBound(s, id, n - 1);
      AnyChildBound(s, id, n - 1);
      SubtreesSize(s, s.runs[id].children, n);
      OneMore(n, GeometricSum(ChildLimit(s.runs[id]), MAXIMUM_DEPTH - s.runs[id].depth - 1));
    }
  }

  lemma {:induction false} AnyChildBound(s: State, id: Uuid, j: nat)
    requires TreeInv(s) && id in s.runs && s.runs[id].depth < MAXIMUM_DEPTH && j < |s.runs[id].children|
    ensures |Subtree(s, s.runs[id].children[j])|
            <= GeometricSum(ChildLimit(s.runs[id]), MAXIMUM_DEPTH - s.runs[id].depth - 1)
    decreases MAXIMUM_DEPTH - s.runs[id].depth, 0
  {
    var kid := s.runs[id].children[j];
    ChildFacts(s, id, j);
    AnySubtreeBound(s, kid);
    GeometricMonotone(ChildLimit(s.runs[kid]), ChildLimit(s.runs[id]), MAXIMUM_DEPTH - s.runs[id].depth - 1);
  }

  lemma OneMore(n: nat, x: nat)
    requires n > 0
    ensures (n - 1) * x + x == n * x
  {
  }

  /** One child at a time: a run with limit c at depth k has at most C(c + d, d) runs below and including it. */
  lemma DelegationTreeBound(schedule: seq<Step>, id: Uuid)
    requires OneAtATime(INITIAL, schedule) && id in After(INITIAL, schedule).runs
    ensures var s := After(INITIAL, schedule);
            && Inv(s) && s.runs[id].depth <= 20
            && var c, d := ChildLimit(s.runs[id]), 20 - s.runs[id].depth;
               |Subtree(s, id)| <= Binomial(c + d, d)
  {
    AfterKeepsTree(INITIAL, schedule);
    var s := After(INITIAL, schedule);
    assert RunInv(s, id);
    CarvedSubtreeBound(s, id);
  }

  /** Under any interleaving of delegate calls the sum of c^i for i <= d still bounds the subtree. */
  lemma InterleavedTreeBound(schedule: seq<Step>, id: Uuid)
    requires id in After(INITIAL, schedule).runs
    ensures var s := After(INITIAL, schedule);
            && Inv(s) && s.runs[id].depth <= 20
            && |Subtree(s, id)| <= PowerSum(ChildLimit(s.runs[id]), 20 - s.runs[id].depth)
  {
    AfterKeepsTree(INITIAL, schedule);
    var s := After(INITIAL, schedule);
    assert RunInv(s, id);
    AnySubtreeBound(s, id);
    GeometricSumIsPowerSum(ChildLimit(s.runs[id]), MAXIMUM_DEPTH - s.runs[id].depth);
  }
}
