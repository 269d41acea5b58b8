/** An operator's cancellation of a managed run and of everything it delegated, in one transaction. */
module CancellationSweep {
  import opened Base
  import opened RunStates

  datatype Kind = VendorRun | ManagedRun | RefundRun

  datatype RunRow = RunRow(kind: Kind, status: RunStatus, summary: Option<string>)

  const ROOT_SUMMARY := "Cancelled by authenticated operator request."
  const CHILD_SUMMARY := "Cancelled because its delegated parent was cancelled."

  /** run_delegations: which runs each run has delegated to. */
  type Delegations = map<Uuid, set<Uuid>>

  function Children(d: Delegations, id: Uuid): set<Uuid> {
    if id in d then d[id] else {}
  }

  /** A walk along delegation rows. */
  ghost predicate Walk(d: Delegations, path: seq<Uuid>) {
    path != [] && forall i :: 0 <= i < |path| - 1 ==> path[i + 1] in Children(d, path[i])
  }

  ghost predicate Reachable(d: Delegations, root: Uuid, id: Uuid) {
    exists path :: Walk(d, path) && path[0] == root && path[|path| - 1] == id
  }

  lemma ReachStep(d: Delegations, root: Uuid, id: Uuid, child: Uuid)
    requires Reachable(d, root, id) && child in Children(d, id)
    ensures Reachable(d, root, child)
  {
    var path :| Walk(d, path) && path[0] == root && path[|path| - 1] == id;
    assert Walk(d, path + [child]);
  }

  lemma ReachSelf(d: Delegations, root: Uuid)
    ensures Reachable(d, root, root)
  {
    assert Walk(d, [root]);
  }

  /** A set that holds the root and is closed under delegation holds every reachable run. */
  lemma {:induction false} ClosedHoldsWalk(d: Delegations, path: seq<Uuid>, seen: set<Uuid>, i: nat)
    requires Walk(d, path) && path[0] in seen && i < |path|
    requires forall id :: id in seen ==> Children(d, id) <= seen
    ensures path[i] in seen
  {
    if i > 0 {
      ClosedHoldsWalk(d, path, seen, i - 1);
      assert path[i - 1 + 1] in Children(d, path[i - 1]);
    }
  }

  lemma ClosedHoldsReachable(d: Delegations, root: Uuid, seen: set<Uuid>)
    requires root in seen && forall id :: id in seen ==> Children(d, id) <= seen
    ensures forall id :: Reachable(d, root, id) ==> id in seen
  {
    forall id | Reachable(d, root, id) ensures id in seen {
      var path :| Walk(d, path) && path[0] == root && path[|path| - 1] == id;
      ClosedHoldsWalk(d, path, seen, |path| - 1);
    }
  }

  /** A level either sees a new run or leaves nothing pending. */
  lemma LevelProgress(all: set<Uuid>, seen: set<Uuid>, children: set<Uuid>, pending: seq<Uuid>)
    requires children <= all && forall p :: p in pending <==> p in children - seen
    ensures if pending == [] then all - (seen + children) == all - seen else all - (seen + children) < all - seen
  {
    if pending == [] {
      assert forall c :: c in children ==> c in seen || c in pending;
    } else {
      assert pending[0] in pending;
      assert pending[0] in all - seen && pending[0] !in all - (seen + children);
    }
  }

  /** What the sweep makes of a run below its root: one that has not ended is cancelled, any other is kept. */
  function AfterSweep(row: RunRow, reached: bool): (after: RunRow)
    ensures reached && row.status in {Pending, Running, Waiting} ==>
              after == RunRow(row.kind, Cancelled, Some(CHILD_SUMMARY))
    ensures !reached || row.status in {Succeeded, Failed, Cancelled, Rejected} ==> after == row
  {
    if !reached || Terminal(row.status) then row else row.(status := Cancelled, summary := Some(CHILD_SUMMARY))
  }

  /** Exactly the runs seen so far, other than the root, have been swept. */
  predicate SweptBelow(before: map<Uuid, RunRow>, after: map<Uuid, RunRow>, root: Uuid, seen: set<Uuid>) {
    && after.Keys == before.Keys
    && forall x :: x in after && x != root ==> after[x] == AfterSweep(before[x], x in seen)
  }

  class RunTable {
    var rows: map<Uuid, RunRow>
    var delegations: Delegations

    /** Foreign keys: delegation rows only name existing runs. */
    predicate Valid()
      reads this
    {
      forall id :: id in delegations ==> id in rows && delegations[id] <= rows.Keys
    }

    constructor (rows: map<Uuid, RunRow>, delegations: Delegations)
      requires forall id :: id in delegations ==> id in rows && delegations[id] <= rows.Keys
      ensures Valid() && this.rows == rows && this.delegations == delegations
    {
      this.rows, this.delegations := rows, delegations;
    }

    /** SELECT the children of every pending parent. */
    method ChildrenOf(parents: seq<Uuid>) returns (ids: set<Uuid>)
      requires Valid()
      ensures forall c :: c in ids <==> exists p :: p in parents && c in Children(delegations, p)
      ensures ids <= rows.Keys
    {
      ids := {};
      for i := 0 to |parents|
        invariant forall c :: c in ids <==> exists k :: 0 <= k < i && c in Children(delegations, parents[k])
        invariant ids <= rows.Keys
      {
        ids := ids + Children(delegations, parents[i]);
      }
    }

    /**
     Cancels the run and, when it is a managed run that has not ended, everything reachable from
     it, level by level. The delegation graph may be of any shape.
     */
    method CancelOnboarding(id: Uuid) returns (targets: seq<Uuid>)
      requires Valid() && id in rows
      modifies `rows
      ensures Valid() && rows.Keys == old(rows).Keys
      ensures NoDuplicates(targets)
      ensures !(old(rows)[id].kind.ManagedRun? && old(rows)[id].status in {Pending, Running, Waiting}) ==>
                rows == old(rows) && targets == [id]
      ensures old(rows)[id].kind.ManagedRun? && old(rows)[id].status in {Pending, Running, Waiting} ==>
                && (forall x :: x in targets <==> Reachable(delegations, id, x))
                && rows[id] == old(rows)[id].(status := Cancelled, summary := Some(ROOT_SUMMARY))
                && forall x :: x in rows && x != id ==>
                     rows[x] == AfterSweep(old(rows)[x], Reachable(delegations, id, x))
    {
      targets := [id];
      if rows[id].kind != ManagedRun || Terminal(rows[id].status) {
        return;
      }
      rows := rows[id := rows[id].(status := Cancelled, summary := Some(ROOT_SUMMARY))];
      targets := Sweep(id, old(rows));
    }

    /** The level-by-level loop, from a root that has been cancelled already. */
    method Sweep(id: Uuid, ghost before: map<Uuid, RunRow>) returns (targets: seq<Uuid>)
      requires Valid() && id in rows && before.Keys == rows.Keys
      requires SweptBelow(before, rows, id, {id})
      modifies `rows
      ensures Valid() && rows.Keys == old(rows).Keys && rows[id] == old(rows)[id]
      ensures NoDuplicates(targets) && forall x :: x in targets <==> Reachable(delegations, id, x)
      ensures forall x :: x in rows && x != id ==> rows[x] == AfterSweep(before[x], Reachable(delegations, id, x))
    {
      targets := [id];
      var pending := [id];
      var seen := {id};
      ReachSelf(delegations, id);
      while pending != []
        invariant Valid() && rows.Keys == old(rows).Keys && rows[id] == old(rows)[id]
        invariant id in seen && seen <= rows.Keys && forall p :: p in pending ==> p in seen
        invariant forall x :: x in seen ==> Reachable(delegations, id, x)
        invariant forall x :: x in seen && x !in pending ==> Children(delegations, x) <= seen
        invariant NoDuplicates(targets) && forall x :: x in targets <==> x in seen
        invariant SweptBelow(before, rows, id, seen)
        decreases rows.Keys - seen, |pending|
      {
        var children := ChildrenOf(pending);
        forall c | c in children ensures Reachable(delegations, id, c) {
          var p :| p in pending && c in Children(delegations, p);
          ReachStep(delegations, id, p, c);
        }
        ghost var seen0 := seen;
        targets, seen, pending := SweepLevel(id, children, seen, targets, before);
        LevelProgress(rows.Keys, seen0, children, pending);
      }
      ClosedHoldsReachable(delegations, id, seen);
    }

    /** One level of the sweep: the children come back in any order. */
    method SweepLevel(
      id: Uuid, children: set<Uuid>, seen0: set<Uuid>, targets0: seq<Uuid>,
      ghost before: map<Uuid, RunRow>)
      returns (targets: seq<Uuid>, seen: set<Uuid>, pending: seq<Uuid>)
      requires Valid() && children <= rows.Keys && before.Keys == rows.Keys && id in rows && id in seen0
      requires NoDuplicates(targets0) && forall x :: x in targets0 <==> x in seen0
      requires SweptBelow(before, rows, id, seen0)
      modifies `rows
      ensures Valid() && rows.Keys == old(rows).Keys && rows[id] == old(rows)[id]
      ensures seen == seen0 + children
      ensures forall p :: p in pending <==> p in children - seen0
      ensures NoDuplicates(targets) && forall x :: x in targets <==> x in seen
      ensures SweptBelow(before, rows, id, seen)
    {
      targets, seen, pending := targets0, seen0, [];
      var todo := children;
      while todo != {}
        invariant todo <= children && Valid() && rows.Keys == old(rows).Keys && rows[id] == old(rows)[id]
        invariant seen == seen0 + (children - todo)
        invariant forall p :: p in pending <==> p in children - todo - seen0
        invariant NoDuplicates(targets) && forall x :: x in targets <==> x in seen
        invariant SweptBelow(before, rows, id, seen)
        decreases todo
      {
        var child :| child in todo;
        todo := todo - {child};
        if child in seen {
          continue;
        }
        seen := seen + {child};
        pending := pending + [child];
        if !Terminal(rows[child].status) {
          rows := rows[child := rows[child].(status := Cancelled, summary := Some(CHILD_SUMMARY))];
        }
        targets := targets + [child];
      }
    }
  }
}
