/**
 The status of one managed run under concurrent activity attempts, operators and approvers.
 Transactions that lock the row are single steps. The others read it first and write it
 later, and their write is refused when the row's version has moved on in between.
 */
module ManagedRuns {
  import opened Base
  import opened RunStates

  datatype Summary = CancellationSummary | Output(value: string)

  datatype Row = Row(status: RunStatus, version: nat, result: Option<Summary>)

  datatype Approval = NoApproval | AwaitingApproval | Decided(approved: bool)

  /** What an unlocked transaction means to do with the row it has read. */
  datatype Intent =
    | BeginExecute                    // managed_agent.execute, first transaction; may be redelivered
    | Decide(approved: bool)          // an operator's approval decision
    | CancelRun                       // an operator's cancellation, of the run or of an ancestor

  datatype Flight = Flight(intent: Intent, seen: RunStatus, version: nat)

  datatype State = State(row: Row, approval: Approval, flights: map<nat, Flight>)

  datatype Step =
    | Read(p: nat, intent: Intent)
    | Flush(p: nat)                   // the transaction's write and commit
    | FinishExecute(output: string)   // managed_agent.execute, last transaction, under the row lock
    | RequestApproval                 // under the row lock
    | Abandon(p: nat)

  const INITIAL := State(Row(Pending, 1, None), NoApproval, map[])

  /** The row that the transaction wants, judged by what it read; None when it leaves the row alone. */
  function Wanted(f: Flight, row: Row): Option<Row> {
    match f.intent
    case BeginExecute =>
      if f.seen in {Cancelled, Running} then None else Some(row.(status := Running))
    case Decide(_) =>
      if f.seen == Waiting then Some(row.(status := Running)) else None
    case CancelRun =>
      if Terminal(f.seen) then None else Some(row.(status := Cancelled, result := Some(CancellationSummary)))
  }

  function Next(s: State, step: Step): State {
    match step
    case Read(p, intent) =>
      if p in s.flights then s else s.(flights := s.flights[p := Flight(intent, s.row.status, s.row.version)])
    case Abandon(p) => s.(flights := s.flights - {p})
    case Flush(p) =>
      if p !in s.flights then s
      else
        var f := s.flights[p];
        var landed := s.(flights := s.flights - {p});
        if f.intent.Decide? && !s.approval.AwaitingApproval? then landed
        else
          var wanted := Wanted(f, s.row);
          if wanted.Some? && f.version != s.row.version then landed
          else
            landed.(
              approval := if f.intent.Decide? then Decided(f.intent.approved) else s.approval,
              row := if wanted.Some? then wanted.value.(version := s.row.version + 1) else s.row)
    case FinishExecute(output) =>
      if s.row.status == Cancelled then s
      else s.(row := Row(Succeeded, s.row.version + 1, Some(Output(output))))
    case RequestApproval =>
      if s.row.status == Cancelled || !s.approval.NoApproval? then s
      else s.(approval := AwaitingApproval, row := s.row.(status := Waiting, version := s.row.version + 1))
  }

  function Run(s: State, schedule: seq<Step>): State
    decreases |schedule|
  {
    if schedule == [] then s else Run(Next(s, schedule[0]), schedule[1..])
  }

  /** A transaction that read the current version read the current status. */
  ghost predicate Inv(s: State) {
    forall p :: p in s.flights ==>
      && s.flights[p].version <= s.row.version
      && (s.flights[p].version == s.row.version ==> s.flights[p].seen == s.row.status)
  }

  lemma NextKeepsInv(s: State, step: Step)
    requires Inv(s)
    ensures Inv(Next(s, step))
  {
  }

  lemma {:induction false} RunKeepsInv(s: State, schedule: seq<Step>)
    requires Inv(s)
    ensures Inv(Run(s, schedule))
    decreases |schedule|
  {
    if schedule != [] {
      NextKeepsInv(s, schedule[0]);
      RunKeepsInv(Next(s, schedule[0]), schedule[1..]);
    }
  }

  lemma {:induction false} RunConcat(s: State, first: seq<Step>, second: seq<Step>)
    ensures Run(s, first + second) == Run(Run(s, first), second)
    decreases |first|
  {
    if first == [] {
      assert first + second == second;
    } else {
      assert (first + second)[1..] == first[1..] + second;
      RunConcat(Next(s, first[0]), first[1..], second);
    }
  }

  lemma CancelledStep(s: State, step: Step)
    requires Inv(s) && s.row.status == Cancelled
    ensures Next(s, step).row == s.row
  {
  }

  lemma {:induction false} CancelledFrom(s: State, more: seq<Step>)
    requires Inv(s) && s.row.status == Cancelled
    ensures Run(s, more).row == s.row
    decreases |more|
  {
    if more != [] {
      NextKeepsInv(s, more[0]);
      CancelledStep(s, more[0]);
      CancelledFrom(Next(s, more[0]), more[1..]);
    }
  }

  /**
   CANCELLED absorbs: no redelivered or late attempt, approval request, decision or further
   cancellation changes the row, so none of them writes SUCCEEDED or a result.
   */
  lemma CancelledIsFinal(schedule: seq<Step>, more: seq<Step>)
    requires Run(INITIAL, schedule).row.status == Cancelled
    ensures Run(INITIAL, schedule + more).row == Run(INITIAL, schedule).row
  {
    RunKeepsInv(INITIAL, schedule);
    RunConcat(INITIAL, schedule, more);
    CancelledFrom(Run(INITIAL, schedule), more);
  }

  /** A decision, once recorded, is the decision. */
  lemma {:induction false} ApprovalIsWriteOnce(s: State, more: seq<Step>)
    requires s.approval.Decided?
    ensures Run(s, more).approval == s.approval
    decreases |more|
  {
    if more != [] {
      ApprovalIsWriteOnce(Next(s, more[0]), more[1..]);
    }
  }

  /** SUCCEEDED does not absorb. It is left exactly by a redelivered execute and by a first approval request. */
  lemma SucceededIsLeftIff(schedule: seq<Step>, step: Step)
    requires Run(INITIAL, schedule).row.status == Succeeded
    ensures var s := Run(INITIAL, schedule);
            Next(s, step).row.status != Succeeded <==>
            || (step == RequestApproval && s.approval.NoApproval?)
            || (&& step.Flush? && step.p in s.flights && s.flights[step.p].intent.BeginExecute?
                && s.flights[step.p].version == s.row.version)
  {
    RunKeepsInv(INITIAL, schedule);
  }

  lemma SucceededCanBeReopened()
    ensures var done := Run(INITIAL, [Read(0, BeginExecute), Flush(0), FinishExecute("done")]);
            && done.row.status == Succeeded
            && Run(done, [Read(1, BeginExecute), Flush(1)]).row.status == Running
  {
    var s1 := Next(INITIAL, Read(0, BeginExecute));
    var s2 := Next(s1, Flush(0));
    var s3 := Next(s2, FinishExecute("done"));
    assert Run(INITIAL, [Read(0, BeginExecute), Flush(0), FinishExecute("done")])
        == Run(s1, [Flush(0), FinishExecute("done")]);
    assert Run(s1, [Flush(0), FinishExecute("done")]) == Run(s2, [FinishExecute("done")]);
    assert Run(s2, [FinishExecute("done")]) == s3;
    var s4 := Next(s3, Read(1, BeginExecute));
    assert Run(s3, [Read(1, BeginExecute), Flush(1)]) == Run(s4, [Flush(1)]);
    assert Run(s4, [Flush(1)]) == Next(s4, Flush(1));
  }

  // ----- Each transaction on its own -----

  /** A transaction that nothing interrupts between its read and its write. */
  function Undisturbed(s: State, p: nat, intent: Intent): State {
    Next(Next(s, Read(p, intent)), Flush(p))
  }

  lemma ExecuteBegins(s: State, p: nat)
    requires p !in s.flights
    ensures var t := Undisturbed(s, p, BeginExecute);
            && t.row.status == (if s.row.status == Cancelled then Cancelled else Running)
            && t.row.result == s.row.result && t.approval == s.approval
  {
  }

  lemma CancelTakesEffect(s: State, p: nat)
    requires p !in s.flights
    ensures var t := Undisturbed(s, p, CancelRun);
            && t.row == (if s.row.status in {Pending, Running, Waiting}
                         then Row(Cancelled, s.row.version + 1, Some(CancellationSummary)) else s.row)
            && t.approval == s.approval
  {
  }

  lemma DecisionTakesEffect(s: State, p: nat, approved: bool)
    requires p !in s.flights
    ensures var t := Undisturbed(s, p, Decide(approved));
            && t.approval == (if s.approval == AwaitingApproval then Decided(approved) else s.approval)
            && t.row.status == (if s.approval == AwaitingApproval && s.row.status == Waiting then Running
                                else s.row.status)
  {
  }

  /** Under the row lock: a finish stores its output, and a first approval request makes the run wait. */
  lemma LockedTransactions(s: State, output: string)
    ensures Next(s, FinishExecute(output)).row ==
              if s.row.status == Cancelled then s.row else Row(Succeeded, s.row.version + 1, Some(Output(output)))
    ensures var t := Next(s, RequestApproval);
            if s.row.status == Cancelled || s.approval != NoApproval then t == s
            else t.approval == AwaitingApproval && t.row == Row(Waiting, s.row.version + 1, s.row.result)
  {
  }

  /** A transaction that is abandoned has changed nothing, and can no longer write. */
  lemma AbandonedWritesNothing(s: State, p: nat)
    ensures var t := Next(s, Abandon(p));
            && t.row == s.row && t.approval == s.approval && Next(t, Flush(p)) == t
            && forall q :: q != p ==> (q in t.flights <==> q in s.flights)
  {
  }

  /** A write whose row has moved on since it was read leaves the row to the other transaction. */
  lemma StaleWriteIsRefused(s: State, p: nat)
    requires p in s.flights && s.flights[p].version != s.row.version
    ensures Next(s, Flush(p)).row == s.row
  {
  }
}
