/**
 The durable start attempt: a lease and a fencing token on one row per run, and the
 coordinator that claims, hands off to Temporal and records the result.
 */
module WorkflowStarts {
  import opened Base

  type Time = int

  datatype StartStatus = StartPending | Started | StartFailed

  datatype AttemptRow = AttemptRow(
    status: StartStatus, token: Option<Uuid>, attempts: nat, lease: Option<Time>, error: Option<string>)

  const NEW_ATTEMPT := AttemptRow(StartPending, None, 0, None, None)

  predicate Claimable(row: AttemptRow, now: Time) {
    !row.status.Started? && (row.lease.Some? ==> row.lease.value <= now)
  }

  /** _claim_start: the row after the claim, and whether the token was granted. */
  function Claim(row: AttemptRow, now: Time, duration: Time, token: Uuid): (AttemptRow, bool) {
    if !Claimable(row, now) then (row, false)
    else (AttemptRow(StartPending, Some(token), row.attempts + 1, Some(now + duration), None), true)
  }

  function MarkStarted(row: AttemptRow, token: Uuid): AttemptRow {
    if row.token == Some(token) then row.(status := Started, error := None, lease := None) else row
  }

  function MarkFailed(row: AttemptRow, token: Uuid, category: string): AttemptRow {
    if row.token == Some(token) then row.(status := StartFailed, error := Some(category), lease := None) else row
  }

  // ----- One start(), seen from its row -----

  /** How the Temporal client answers one start_workflow call. */
  datatype Answer =
    | Answered                        // accepted, or refused because the workflow exists already
    | Unheard(category: string)       // accepted, but the caller saw an error
    | Unreachable(category: string)

  datatype StartOutcome = Skipped | NowStarted | Unavailable(category: string)

  function StartRow(row: AttemptRow, now: Time, duration: Time, token: Uuid, answer: Answer)
    : (AttemptRow, StartOutcome)
  {
    var (claimed, granted) := Claim(row, now, duration, token);
    if !granted then (row, Skipped)
    else
      match answer
      case Answered => (MarkStarted(claimed, token), NowStarted)
      case Unheard(c) => (MarkFailed(claimed, token, c), Unavailable(c))
      case Unreachable(c) => (MarkFailed(claimed, token, c), Unavailable(c))
  }

  // ----- The coordinator -----

  /** Each row's own trip through one recovery: when its clock is read, its fresh token, Temporal's answer. */
  datatype Trip = Trip(now: Time, token: Uuid, answer: Answer)

  function AfterTrip(row: AttemptRow, trip: Trip, duration: Time): AttemptRow {
    StartRow(row, trip.now, duration, trip.token, trip.answer).0
  }

  function OutcomeOf(row: AttemptRow, trip: Trip, duration: Time): StartOutcome {
    StartRow(row, trip.now, duration, trip.token, trip.answer).1
  }

  predicate Unstarted(rows: map<Uuid, AttemptRow>, id: Uuid) {
    id in rows && !rows[id].status.Started?
  }

  /** SELECT ... WHERE status != STARTED ORDER BY created_at LIMIT limit. */
  function Inspected(rows: map<Uuid, AttemptRow>, order: seq<Uuid>, limit: nat): (ids: seq<Uuid>)
    ensures |ids| <= limit && |ids| <= |order|
    ensures forall id :: id in ids ==> id in order && Unstarted(rows, id)
  {
    if order == [] || limit == 0 then []
    else if Unstarted(rows, order[0]) then [order[0]] + Inspected(rows, order[1..], limit - 1)
    else Inspected(rows, order[1..], limit)
  }

  function CountUnstarted(rows: map<Uuid, AttemptRow>, order: seq<Uuid>): nat {
    if order == [] then 0
    else (if Unstarted(rows, order[0]) then 1 else 0) + CountUnstarted(rows, order[1..])
  }

  function UnavailableAmong(rows: map<Uuid, AttemptRow>, ids: seq<Uuid>, trips: Uuid -> Trip, duration: Time): nat {
    if ids == [] then 0
    else
      var n := |ids| - 1;
      UnavailableAmong(rows, ids[..n], trips, duration)
      + if ids[n] in rows && OutcomeOf(rows[ids[n]], trips(ids[n]), duration).Unavailable? then 1 else 0
  }

  /** The listed rows that have ended STARTED. */
  function StartedAmong(rows: map<Uuid, AttemptRow>, ids: seq<Uuid>): nat {
    if ids == [] then 0
    else
      var n := |ids| - 1;
      StartedAmong(rows, ids[..n]) + if ids[n] in rows && rows[ids[n]].status.Started? then 1 else 0
  }

  /** The listed rows whose lease was live when the trip read the clock. */
  function LeasedAmong(rows: map<Uuid, AttemptRow>, ids: seq<Uuid>, trips: Uuid -> Trip): nat {
    if ids == [] then 0
    else
      var n := |ids| - 1;
      LeasedAmong(rows, ids[..n], trips)
      + if ids[n] in rows && rows[ids[n]].lease.Some? && rows[ids[n]].lease.value > trips(ids[n]).now then 1 else 0
  }

  /** Exactly the listed rows have made their trip. */
  ghost predicate Recovered(
    before: map<Uuid, AttemptRow>, after: map<Uuid, AttemptRow>, ids: seq<Uuid>, trips: Uuid -> Trip, duration: Time)
  {
    && after.Keys == before.Keys
    && forall id :: id in before ==>
         after[id] == if id in ids then AfterTrip(before[id], trips(id), duration) else before[id]
  }

  lemma RecoveredOneMore(
    before: map<Uuid, AttemptRow>, reached: map<Uuid, AttemptRow>, after: map<Uuid, AttemptRow>,
    ids: seq<Uuid>, i: nat, trips: Uuid -> Trip, duration: Time)
    requires i < |ids| && ids[i] in before && NoDuplicates(ids)
    requires Recovered(before, reached, ids[..i], trips, duration)
    requires after == reached[ids[i] := AfterTrip(reached[ids[i]], trips(ids[i]), duration)]
    ensures Recovered(before, after, ids[..i + 1], trips, duration)
  {
    assert ids[i] !in ids[..i];
    assert ids[..i + 1] == ids[..i] + [ids[i]];
  }

  class WorkflowStartCoordinator {
    var rows: map<Uuid, AttemptRow>
    var held: set<Uuid>            // runs whose workflow id Temporal holds
    var order: seq<Uuid>           // start attempts by created_at
    const duration: Time

    ghost predicate Valid()
      reads this
    {
      && NoDuplicates(order)
      && (forall id :: id in order <==> id in rows)
      && (forall id :: id in rows && rows[id].status.Started? ==> id in held)
    }

    constructor (rows: map<Uuid, AttemptRow>, held: set<Uuid>, order: seq<Uuid>, duration: Time)
      requires NoDuplicates(order) && (forall id :: id in order <==> id in rows)
      requires forall id :: id in rows && rows[id].status.Started? ==> id in held
      ensures Valid() && this.rows == rows && this.held == held && this.order == order && this.duration == duration
    {
      this.rows, this.held, this.order, this.duration := rows, held, order, duration;
    }

    method ClaimStart(id: Uuid, now: Time, token: Uuid) returns (granted: bool)
      requires id in rows
      modifies `rows
      ensures var row := old(rows)[id];
              granted <==> row.status != Started && (row.lease.Some? ==> row.lease.value <= now)
      ensures granted ==>
                rows == old(rows)[id := AttemptRow(StartPending, Some(token), old(rows)[id].attempts + 1,
                                                   Some(now + duration), None)]
      ensures granted == Claim(old(rows)[id], now, duration, token).1
      ensures rows == old(rows)[id := Claim(old(rows)[id], now, duration, token).0]
    {
      var attempt := rows[id];
      assert old(rows) == old(rows)[id := attempt];
      if attempt.status == Started {
        return false;
      }
      if attempt.lease.Some? && attempt.lease.value > now {
        return false;
      }
      rows := rows[id := AttemptRow(StartPending, Some(token), attempt.attempts + 1, Some(now + duration), None)];
      return true;
    }

    method RecordStarted(id: Uuid, token: Uuid)
      requires id in rows
      modifies `rows
      ensures old(rows)[id].token != Some(token) ==> rows == old(rows)
      ensures old(rows)[id].token == Some(token) ==>
                rows == old(rows)[id := AttemptRow(Started, Some(token), old(rows)[id].attempts, None, None)]
      ensures rows == old(rows)[id := MarkStarted(old(rows)[id], token)]
    {
      var attempt := rows[id];
      assert old(rows) == old(rows)[id := attempt];
      if attempt.token == Some(token) {
        rows := rows[id := attempt.(status := Started, error := None, lease := None)];
      }
    }

    method RecordFailed(id: Uuid, token: Uuid, category: string)
      requires id in rows
      modifies `rows
      ensures old(rows)[id].token != Some(token) ==> rows == old(rows)
      ensures old(rows)[id].token == Some(token) ==>
                rows ==
                old(rows)[id := AttemptRow(StartFailed, Some(token), old(rows)[id].attempts, None, Some(category))]
      ensures rows == old(rows)[id := MarkFailed(old(rows)[id], token, category)]
    {
      var attempt := rows[id];
      assert old(rows) == old(rows)[id := attempt];
      if attempt.token == Some(token) {
        rows := rows[id := attempt.(status := StartFailed, error := Some(category), lease := None)];
      }
    }

    method Start(id: Uuid, trip: Trip) returns (outcome: StartOutcome)
      requires Valid() && id in rows
      modifies `rows, `held
      ensures Valid()
      ensures (rows[id], outcome) == StartRow(old(rows)[id], trip.now, duration, trip.token, trip.answer)
      ensures rows == old(rows)[id := rows[id]]
      ensures held == old(held) + if outcome.Skipped? || trip.answer.Unreachable? then {} else {id}
    {
      var granted := ClaimStart(id, trip.now, trip.token);
      if !granted {
        return Skipped;
      }
      match trip.answer {
        case Answered =>
          held := held + {id};
          RecordStarted(id, trip.token);
          outcome := NowStarted;
        case Unheard(category) =>
          held := held + {id};
          RecordFailed(id, trip.token, category);
          outcome := Unavailable(category);
        case Unreachable(category) =>
          RecordFailed(id, trip.token, category);
          outcome := Unavailable(category);
      }
    }

    /** One pass over the oldest unstarted attempts. */
    method Recover(limit: nat, trips: Uuid -> Trip) returns (inspected: nat, unavailable: nat)
      requires Valid()
      modifies `rows, `held
      ensures Valid()
      ensures inspected == |Inspected(old(rows), order, limit)|
      ensures unavailable == UnavailableAmong(old(rows), Inspected(old(rows), order, limit), trips, duration)
      ensures Recovered(old(rows), rows, Inspected(old(rows), order, limit), trips, duration)
      ensures var ids := Inspected(old(rows), order, limit);
              inspected == StartedAmong(rows, ids) + unavailable + LeasedAmong(old(rows), ids, trips)
    {
      var runIds := Inspected(rows, order, limit);
      InspectedDistinct(rows, order, limit);
      unavailable := 0;
      for i := 0 to |runIds|
        invariant Valid() && Recovered(old(rows), rows, runIds[..i], trips, duration)
        invariant unavailable == UnavailableAmong(old(rows), runIds[..i], trips, duration)
      {
        var id := runIds[i];
        ghost var reached := rows;
        var outcome := Start(id, trips(id));
        if outcome.Unavailable? {
          unavailable := unavailable + 1;
        }
        RecoveredOneMore(old(rows), reached, rows, runIds, i, trips, duration);
        assert runIds[..i + 1][..i] == runIds[..i];
      }
      assert runIds[..|runIds|] == runIds;
      inspected := |runIds|;
      RecoveryPartitions(old(rows), rows, runIds, trips, duration, |runIds|);
    }
  }

  lemma {:induction false} InspectedDistinct(rows: map<Uuid, AttemptRow>, order: seq<Uuid>, limit: nat)
    requires NoDuplicates(order)
    ensures NoDuplicates(Inspected(rows, order, limit))
    decreases |order|
  {
    if order != [] && limit > 0 {
      var rest := order[1..];
      InspectedDistinct(rows, rest, limit);
      InspectedDistinct(rows, rest, limit - 1);
      assert order[0] !in rest;
    }
  }

  lemma {:induction false} InspectedIsComplete(rows: map<Uuid, AttemptRow>, order: seq<Uuid>, limit: nat, id: Uuid)
    requires limit >= CountUnstarted(rows, order) && id in order && Unstarted(rows, id)
    ensures id in Inspected(rows, order, limit)
    decreases |order|
  {
    if id != order[0] {
      InspectedIsComplete(rows, order[1..], if Unstarted(rows, order[0]) then limit - 1 else limit, id);
    } else {
      assert CountUnstarted(rows, order) >= 1;
    }
  }

  /** What one trip can do to an unstarted row: start it, fail it as unavailable, or leave it to a live lease. */
  lemma TripPartition(row: AttemptRow, trip: Trip, duration: Time)
    requires !row.status.Started?
    ensures var (after, outcome) := StartRow(row, trip.now, duration, trip.token, trip.answer);
            && (outcome.NowStarted? <==> after.status.Started?)
            && (outcome.Unavailable? <==> !(row.lease.Some? && row.lease.value > trip.now) && !trip.answer.Answered?)
            && (outcome.Unavailable? ==>
                  && after.status.StartFailed? && after.error == Some(outcome.category) && after.lease == None
                  && outcome.category == trip.answer.category)
            && (outcome.Skipped? <==> row.lease.Some? && row.lease.value > trip.now)
            && (outcome.Skipped? ==> after == row)
            && after.attempts == row.attempts + if outcome.Skipped? then 0 else 1
  {
  }

  /** A pass takes each row that it inspects to exactly one end: started, unavailable, or left to a live lease. */
  lemma {:induction false} RecoveryPartitions(
    before: map<Uuid, AttemptRow>, after: map<Uuid, AttemptRow>, ids: seq<Uuid>, trips: Uuid -> Trip,
    duration: Time, n: nat)
    requires Recovered(before, after, ids, trips, duration) && n <= |ids|
    requires forall id :: id in ids ==> Unstarted(before, id)
    ensures StartedAmong(after, ids[..n]) + UnavailableAmong(before, ids[..n], trips, duration)
          + LeasedAmong(before, ids[..n], trips) == n
    decreases n
  {
    if n > 0 {
      RecoveryPartitions(before, after, ids, trips, duration, n - 1);
      assert ids[..n][..n - 1] == ids[..n - 1];
      assert Unstarted(before, ids[n - 1]);
      TripPartition(before[ids[n - 1]], trips(ids[n - 1]), duration);
    }
  }

  /** After a start that ended unavailable a second start of the run is not skipped, whatever its clock reads. */
  method StartAgain(c: WorkflowStartCoordinator, id: Uuid, first: Trip, second: Trip)
    returns (before: StartOutcome, outcome: StartOutcome)
    requires c.Valid() && id in c.rows
    modifies c
    ensures c.Valid() && id in c.rows
    ensures before.Unavailable? ==> outcome != Skipped
    ensures before.Unavailable? && second.answer.Answered? ==>
              outcome == NowStarted && c.rows[id].status.Started? && id in c.held
  {
    ghost var row := c.rows[id];
    before := c.Start(id, first);
    if !row.status.Started? {
      TripPartition(row, first, c.duration);
    }
    ghost var failed := c.rows[id];
    outcome := c.Start(id, second);
    if before.Unavailable? {
      TripPartition(failed, second, c.duration);
    }
  }

  /** The pass inspects as many unstarted rows as there are, up to its limit. */
  lemma {:induction false} InspectedCount(rows: map<Uuid, AttemptRow>, order: seq<Uuid>, limit: nat)
    ensures |Inspected(rows, order, limit)| ==
              if CountUnstarted(rows, order) <= limit then CountUnstarted(rows, order) else limit
    decreases |order|
  {
    if order != [] && limit > 0 {
      InspectedCount(rows, order[1..], limit);
      InspectedCount(rows, order[1..], limit - 1);
    }
  }

  /** The oldest first: whatever is inspected, an older unstarted row is inspected too. */
  lemma {:induction false} InspectedAreOldest(
    rows: map<Uuid, AttemptRow>, order: seq<Uuid>, limit: nat, i: nat, j: nat)
    requires NoDuplicates(order) && i < j < |order|
    requires Unstarted(rows, order[i]) && order[j] in Inspected(rows, order, limit)
    ensures order[i] in Inspected(rows, order, limit)
    decreases |order|
  {
    if i > 0 {
      assert order[0] != order[j];
      InspectedAreOldest(rows, order[1..], if Unstarted(rows, order[0]) then limit - 1 else limit, i - 1, j - 1);
    }
  }

  /** With room for every unstarted attempt, no live lease and a Temporal that answers, one pass starts them all. */
  method RecoverConverges(c: WorkflowStartCoordinator, limit: nat, trips: Uuid -> Trip)
    returns (inspected: nat, unavailable: nat)
    requires c.Valid() && limit >= CountUnstarted(c.rows, c.order)
    requires forall id :: Unstarted(c.rows, id) ==> Claimable(c.rows[id], trips(id).now) && trips(id).answer.Answered?
    modifies c
    ensures forall id :: id in c.rows ==> c.rows[id].status.Started? && id in c.held
    ensures c.rows.Keys == old(c.rows.Keys) && unavailable == 0
  {
    ghost var before := c.rows;
    ghost var ids := Inspected(before, c.order, limit);
    forall id | Unstarted(before, id) ensures id in ids {
      InspectedIsComplete(before, c.order, limit, id);
    }
    NoneUnavailable(before, ids, trips, c.duration);
    inspected, unavailable := c.Recover(limit, trips);
  }

  lemma {:induction false} NoneUnavailable(
    rows: map<Uuid, AttemptRow>, ids: seq<Uuid>, trips: Uuid -> Trip, duration: Time)
    requires forall id :: id in ids ==> id in rows && Claimable(rows[id], trips(id).now) && trips(id).answer.Answered?
    ensures UnavailableAmong(rows, ids, trips, duration) == 0
    decreases |ids|
  {
    if ids != [] {
      var n := |ids| - 1;
      assert ids[n] in ids;
      NoneUnavailable(rows, ids[..n], trips, duration);
    }
  }
}
