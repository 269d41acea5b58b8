/**
 The managed-agent workflow around its one activity. The row is changed by ManagedRuns' steps; an
 attempt's reply counts only while that attempt is the one that the workflow awaits.
 */
module ManagedWorkflow {
  import opened Base
  import opened RunStates
  import M = ManagedRuns

  datatype Phase = Created | Executing | CancelledPhase | Completed

  datatype Reply = RunCancelled | Finished(output: string)

  datatype Workflow = Workflow(phase: Phase, cancelled: bool)

  const NEW := Workflow(Created, false)

  function Begin(w: Workflow): Workflow {
    if !w.phase.Created? then w else w.(phase := if w.cancelled then CancelledPhase else Executing)
  }

  function Resume(w: Workflow, reply: Reply): Workflow {
    if !w.phase.Executing? then w else w.(phase := if reply.RunCancelled? then CancelledPhase else Completed)
  }

  function ResultOf(reply: Reply): Option<string> {
    if reply.Finished? then Some(reply.output) else None
  }

  function Signal(w: Workflow): Workflow {
    w.(cancelled := true)
  }

  class ManagedAgentWorkflow {
    var phase: Phase
    var cancelled: bool

    function Fields(): Workflow
      reads this
    {
      Workflow(phase, cancelled)
    }

    constructor ()
      ensures Fields() == NEW
    {
      phase, cancelled := Created, false;
    }

    /** The coroutine up to its activity. */
    method Start() returns (awaits: bool)
      requires phase == Created
      modifies this
      ensures Fields() == Begin(old(Fields()))
      ensures awaits == !old(cancelled)
      ensures phase == (if old(cancelled) then CancelledPhase else Executing) && cancelled == old(cancelled)
    {
      if cancelled {
        phase := CancelledPhase;
        return false;
      }
      phase := Executing;
      return true;
    }

    /** The coroutine after its activity. */
    method Continue(reply: Reply) returns (result: Option<string>)
      requires phase == Executing
      modifies this
      ensures Fields() == Resume(old(Fields()), reply)
      ensures match reply
              case RunCancelled => phase == CancelledPhase && result == None
              case Finished(output) => phase == Completed && result == Some(output)
    {
      if reply.RunCancelled? {
        phase := CancelledPhase;
        return None;
      }
      phase := Completed;
      return Some(reply.output);
    }

    method Cancel()
      modifies this
      ensures Fields() == Signal(old(Fields()))
    {
      cancelled := true;
    }
  }

  // ----- Workflow, attempts and row -----

  /** `ended` holds the replies of the attempts that have run their last transaction. */
  datatype State = State(
    wf: Workflow,
    run: M.State,
    attempts: set<nat>,
    current: Option<nat>,
    ended: map<nat, Reply>,
    returned: Option<string>)        // the workflow's result

  datatype Step =
    | StartWorkflow
    | CancelSignal
    | Deliver(p: nat)                  // a new attempt, the previous one being given up
    | Row(step: M.Step)                // any other transaction on the row
    | SeesCancelled(p: nat)            // the attempt's first transaction finds the run cancelled
    | Finish(p: nat, output: string)   // the attempt's last transaction
    | Ack(p: nat)

  const INITIAL := State(NEW, M.INITIAL, {}, None, map[], None)

  function Next(s: State, step: Step): State {
    match step
    case StartWorkflow => s.(wf := Begin(s.wf))
    case CancelSignal => s.(wf := Signal(s.wf))
    case Deliver(p) =>
      if !s.wf.phase.Executing? || p in s.attempts then s
      else s.(attempts := s.attempts + {p}, current := Some(p))
    case Row(inner) => if inner.FinishExecute? then s else s.(run := M.Next(s.run, inner))
    case SeesCancelled(p) =>
      if p !in s.attempts || p in s.ended || s.run.row.status != Cancelled then s
      else s.(ended := s.ended[p := RunCancelled])
    case Finish(p, output) =>
      if p !in s.attempts || p in s.ended then s
      else
        s.(run := M.Next(s.run, M.FinishExecute(output)),
           ended := s.ended[p := if s.run.row.status == Cancelled then RunCancelled else Finished(output)])
    case Ack(p) =>
      if s.current != Some(p) || p !in s.ended || !s.wf.phase.Executing? then s
      else s.(wf := Resume(s.wf, s.ended[p]), returned := ResultOf(s.ended[p]))
  }

  function After(s: State, schedule: seq<Step>): State
    decreases |schedule|
  {
    if schedule == [] then s else After(Next(s, schedule[0]), schedule[1..])
  }

  ghost predicate Inv(s: State) {
    && M.Inv(s.run)
    && (forall p :: p in s.ended ==> p in s.attempts)
    && (s.current.Some? ==> s.current.value in s.attempts)
    && (s.wf.phase.Completed? ==>
          && s.current.Some? && s.current.value in s.ended
          && s.ended[s.current.value].Finished? && s.returned == Some(s.ended[s.current.value].output))
  }

  lemma NextKeepsInv(s: State, step: Step)
    requires Inv(s)
    ensures Inv(Next(s, step))
  {
    match step {
      case Row(inner) => M.NextKeepsInv(s.run, inner);
      case Finish(p, output) => M.NextKeepsInv(s.run, M.FinishExecute(output));
      case _ =>
    }
  }

  lemma {:induction false} AfterKeepsInv(s: State, schedule: seq<Step>)
    requires Inv(s)
    ensures Inv(After(s, schedule))
    decreases |schedule|
  {
    if schedule != [] {
      NextKeepsInv(s, schedule[0]);
      AfterKeepsInv(Next(s, schedule[0]), schedule[1..]);
    }
  }

  lemma {:induction false} AfterConcat(s: State, first: seq<Step>, second: seq<Step>)
    ensures After(s, first + second) == After(After(s, first), second)
    decreases |first|
  {
    if first == [] {
      assert first + second == second;
    } else {
      assert (first + second)[1..] == first[1..] + second;
      AfterConcat(Next(s, first[0]), first[1..], second);
    }
  }

  /** At position k an attempt's last transaction found the run not cancelled and made it SUCCEEDED with its output. */
  predicate Wrote(schedule: seq<Step>, k: nat)
    requires k < |schedule|
  {
    var before, after := After(INITIAL, schedule[..k]), After(INITIAL, schedule[..k + 1]);
    && schedule[k].Finish?
    && schedule[k].p in before.attempts && before.run.row.status != Cancelled
    && after.run.row.status == Succeeded && after.run.row.result == Some(M.Output(schedule[k].output))
  }

  lemma AfterOneMore(schedule: seq<Step>, k: nat)
    requires k < |schedule|
    ensures After(INITIAL, schedule[..k + 1]) == Next(After(INITIAL, schedule[..k]), schedule[k])
  {
    assert schedule[..k + 1] == schedule[..k] + [schedule[k]];
    AfterConcat(INITIAL, schedule[..k], [schedule[k]]);
    assert After(After(INITIAL, schedule[..k]), [schedule[k]]) == Next(After(INITIAL, schedule[..k]), schedule[k]);
  }

  /** A reply with a result was written by the transaction that it reports. */
  lemma {:induction false} FinishedWasWritten(schedule: seq<Step>, n: nat, p: nat) returns (k: nat)
    requires n <= |schedule|
    requires p in After(INITIAL, schedule[..n]).ended && After(INITIAL, schedule[..n]).ended[p].Finished?
    ensures k < |schedule| && Wrote(schedule, k)
    ensures schedule[k] == Finish(p, After(INITIAL, schedule[..n]).ended[p].output)
  {
    assert n > 0 by {
      assert schedule[..0] == [];
    }
    AfterOneMore(schedule, n - 1);
    var before := After(INITIAL, schedule[..n - 1]);
    if p in before.ended {
      k := FinishedWasWritten(schedule, n - 1, p);
    } else {
      k := n - 1;
    }
  }

  /**
   A completed workflow returns the output of the awaited attempt, whose last transaction found the
   run not cancelled and left it SUCCEEDED with that same output.
   */
  lemma CompletedHasFinished(schedule: seq<Step>) returns (k: nat)
    requires After(INITIAL, schedule).wf.phase.Completed?
    ensures k < |schedule| && Wrote(schedule, k)
    ensures After(INITIAL, schedule).current == Some(schedule[k].p)
    ensures After(INITIAL, schedule).returned == Some(schedule[k].output)
  {
    AfterKeepsInv(INITIAL, schedule);
    assert schedule[..|schedule|] == schedule;
    k := FinishedWasWritten(schedule, |schedule|, After(INITIAL, schedule).current.value);
  }

  /** The awaited attempt has no result to report yet. */
  predicate Undecided(s: State) {
    && !s.wf.phase.Completed?
    && (s.current.Some? && s.current.value in s.ended ==> s.ended[s.current.value].RunCancelled?)
  }

  lemma NextStaysUndecided(s: State, step: Step)
    requires Inv(s) && s.run.row.status == Cancelled && Undecided(s)
    ensures Undecided(Next(s, step)) && Next(s, step).run.row == s.run.row
  {
    match step {
      case Row(inner) => M.CancelledStep(s.run, inner);
      case Finish(p, output) => M.CancelledStep(s.run, M.FinishExecute(output));
      case _ =>
    }
  }

  lemma {:induction false} CancelledFrom(s: State, more: seq<Step>)
    requires Inv(s) && s.run.row.status == Cancelled && Undecided(s)
    ensures Undecided(After(s, more)) && After(s, more).run.row == s.run.row
    decreases |more|
  {
    if more != [] {
      NextKeepsInv(s, more[0]);
      NextStaysUndecided(s, more[0]);
      CancelledFrom(Next(s, more[0]), more[1..]);
    }
  }

  /**
   Once the run is cancelled before the awaited attempt has finished, the workflow never completes
   and the row never changes, whatever attempts are redelivered or finish later.
   */
  lemma CancelledNeverCompletes(schedule: seq<Step>, more: seq<Step>)
    requires After(INITIAL, schedule).run.row.status == Cancelled && Undecided(After(INITIAL, schedule))
    ensures var s := After(INITIAL, schedule + more);
            !s.wf.phase.Completed? && s.run.row == After(INITIAL, schedule).run.row
  {
    AfterKeepsInv(INITIAL, schedule);
    AfterConcat(INITIAL, schedule, more);
    CancelledFrom(After(INITIAL, schedule), more);
  }

  // ----- What gets done -----

  /** The awaited attempt's reply, and no other, ends the workflow, once. */
  lemma ReplyEndsWorkflowIff(s: State, p: nat)
    ensures var t := Next(s, Ack(p));
            if s.wf.phase == Executing && s.current == Some(p) && p in s.ended then
              && t.run == s.run
              && match s.ended[p]
                 case RunCancelled => t.wf.phase == CancelledPhase && t.returned == None
                 case Finished(output) => t.wf.phase == Completed && t.returned == Some(output)
            else t == s
  {
  }

  /** An attempt reports the row as its last transaction found it. */
  lemma AttemptReportsRow(s: State, p: nat, output: string)
    requires p in s.attempts && p !in s.ended
    ensures var t := Next(s, Finish(p, output));
            p in t.ended && t.ended[p] == if s.run.row.status == Cancelled then RunCancelled else Finished(output)
    ensures s.run.row.status == Cancelled ==> Next(s, SeesCancelled(p)) == s.(ended := s.ended[p := RunCancelled])
  {
  }

  /** A redelivered attempt finds the run cancelled and ends the workflow as cancelled. */
  lemma CancelledRunEndsWorkflow(s: State, p: nat)
    requires Inv(s) && s.wf.phase == Executing && p !in s.attempts && s.run.row.status == Cancelled
    ensures var t := Next(Next(Next(s, Deliver(p)), SeesCancelled(p)), Ack(p));
            t.wf.phase == CancelledPhase && t.returned == None && t.run == s.run
  {
    var u := Next(s, Deliver(p));
    assert p !in u.ended;
    AttemptReportsRow(u, p, "");
    ReplyEndsWorkflowIff(Next(u, SeesCancelled(p)), p);
  }

  /** A signal that arrives before the coroutine starts keeps every attempt from being delivered. */
  lemma {:induction false} EarlySignalStops(schedule: seq<Step>)
    ensures var s := After(Next(Next(INITIAL, CancelSignal), StartWorkflow), schedule);
            s.wf == Workflow(CancelledPhase, true) && s.attempts == {} && s.returned == None
    decreases |schedule|
  {
    var begun := Next(Next(INITIAL, CancelSignal), StartWorkflow);
    if schedule != [] {
      var n := |schedule| - 1;
      EarlySignalStops(schedule[..n]);
      assert schedule == schedule[..n] + [schedule[n]];
      AfterConcat(begun, schedule[..n], [schedule[n]]);
      var s := After(begun, schedule[..n]);
      assert After(s, [schedule[n]]) == Next(s, schedule[n]);
      SignalledStays(s, schedule[n]);
    }
  }

  lemma SignalledStays(s: State, step: Step)
    requires s.wf == Workflow(CancelledPhase, true) && s.attempts == {} && s.returned == None
    ensures var t := Next(s, step);
            t.wf == Workflow(CancelledPhase, true) && t.attempts == {} && t.returned == None
  {
  }

  /** An undisturbed run: its output is on the row and is what the workflow returns. */
  lemma UndisturbedRunCompletes(output: string)
    ensures var delivered := Next(Next(INITIAL, StartWorkflow), Deliver(0));
            var begun := Next(Next(delivered, Row(M.Read(0, M.BeginExecute))), Row(M.Flush(0)));
            var s := Next(Next(begun, Finish(0, output)), Ack(0));
            && begun.run.row.status == Running
            && s.run.row.status == Succeeded && s.run.row.result == Some(M.Output(output))
            && s.wf.phase == Completed && s.returned == Some(output)
  {
    M.ExecuteBegins(M.INITIAL, 0);
  }
}
