/**
 A run's event log and the paged stream that follows it. The writer appends under the run lock;
 the reader polls in batches, reading the events first and the run's status afterwards; the
 client may lose what is on the wire and reconnect from the last identifier that it received.
 */
module EventStream {
  import opened Base
  import opened RunStates

  datatype Event = Event(sequence: nat, kind: string, summary: string)

  const BATCH_SIZE := 100

  function LastSequence(log: seq<Event>): nat {
    if log == [] then 0 else log[|log| - 1].sequence
  }

  predicate Increasing(log: seq<Event>) {
    && (forall i, j :: 0 <= i < j < |log| ==> log[i].sequence < log[j].sequence)
    && (forall i :: 0 <= i < |log| ==> log[i].sequence > 0)
  }

  /** The events of the log above one sequence number and up to another, in log order. */
  function Between(log: seq<Event>, above: nat, upTo: nat): seq<Event> {
    if log == [] then []
    else
      var last := log[|log| - 1];
      Between(log[..|log| - 1], above, upTo) + if above < last.sequence <= upTo then [last] else []
  }

  function After(log: seq<Event>, above: nat): seq<Event> {
    Between(log, above, LastSequence(log))
  }

  /** events_after: the first events above the cursor, in sequence order. */
  function EventsAfter(log: seq<Event>, cursor: nat, limit: nat): seq<Event> {
    var events := After(log, cursor);
    if |events| <= limit then events else events[..limit]
  }

  // ----- The writer -----

  predicate ValidEvent(kind: string, summary: string) {
    0 < |kind| <= 120 && 0 < |summary| <= 4000
  }

  /** The log of a managed run has exactly the sequence numbers 10, 20, ..., 10n. */
  predicate ManagedLog(log: seq<Event>) {
    forall i :: 0 <= i < |log| ==> log[i].sequence == 10 * (i + 1)
  }

  class ManagedEventLog {
    var events: seq<Event>

    constructor ()
      ensures events == []
    {
      events := [];
    }

    /** Append under the run lock, ten above the highest sequence number. */
    method EmitEvent(kind: string, summary: string) returns (emitted: bool)
      requires ManagedLog(events)
      modifies this
      ensures ManagedLog(events)
      ensures emitted <==> 0 < |kind| <= 120 && 0 < |summary| <= 4000
      ensures events == old(events) + if emitted then [Event(10 * (|old(events)| + 1), kind, summary)] else []
    {
      emitted := 0 < |kind| <= 120 && 0 < |summary| <= 4000;
      if emitted {
        var sequence := (if |events| > 0 then events[|events| - 1].sequence else 0) + 10;
        events := events + [Event(sequence, kind, summary)];
      }
    }
  }

  // ----- The reader -----

  datatype Header = Absent | Number(value: int) | NotANumber

  /** The furthest supplied replay cursor; None when the header is refused. */
  function StreamCursor(header: Header, after: nat): (cursor: Option<nat>)
    ensures cursor.None? <==> header.NotANumber? || (header.Number? && header.value < 0)
    ensures cursor.Some? ==> cursor.value >= after
    ensures cursor.Some? && header.Number? ==> cursor.value >= header.value
    ensures cursor.Some? ==> cursor.value == after || header == Number(cursor.value)
  {
    match header
    case Absent => Some(after)
    case NotANumber => None
    case Number(value) => if value < 0 then None else Some(if value > after then value else after)
  }

  /** The cursor after a batch has been yielded. */
  function Advance(cursor: nat, batch: seq<Event>): nat {
    if batch == [] then cursor else LastSequence(batch)
  }

  class EventSource {
    var cursor: nat
    var yielded: seq<Event>
    var closed: bool

    constructor (cursor: nat)
      ensures this.cursor == cursor && yielded == [] && !closed
    {
      this.cursor, yielded, closed := cursor, [], false;
    }

    /** One turn of the loop: the batch that was read, then the status that was read after it. */
    method Poll(batch: seq<Event>, status: Option<RunStatus>)
      requires !closed
      modifies this
      ensures yielded == old(yielded) + batch
      ensures cursor == Advance(old(cursor), batch)
      ensures !closed <==> status.Some? && status.value in {Pending, Running, Waiting}
    {
      for i := 0 to |batch|
        invariant yielded == old(yielded) + batch[..i]
        invariant cursor == Advance(old(cursor), batch[..i])
        invariant !closed
      {
        cursor := batch[i].sequence;
        yielded := yielded + [batch[i]];
      }
      assert batch[..|batch|] == batch;
      if status.None? || Terminal(status.value) {
        closed := true;
      }
    }
  }

  // ----- Facts about increasing logs -----

  lemma {:induction false} BetweenOfEnough(log: seq<Event>, above: nat, a: nat, b: nat)
    requires forall e :: e in log ==> e.sequence <= a && e.sequence <= b
    ensures Between(log, above, a) == Between(log, above, b)
    decreases |log|
  {
    if log != [] {
      assert log[|log| - 1] in log;
      BetweenOfEnough(log[..|log| - 1], above, a, b);
    }
  }

  lemma {:induction false} BetweenIsEmpty(log: seq<Event>, above: nat, upTo: nat)
    requires forall e :: e in log ==> !(above < e.sequence <= upTo)
    ensures Between(log, above, upTo) == []
    decreases |log|
  {
    if log != [] {
      assert log[|log| - 1] in log;
      BetweenIsEmpty(log[..|log| - 1], above, upTo);
    }
  }

  lemma AtMostLast(log: seq<Event>)
    requires Increasing(log)
    ensures forall e :: e in log ==> e.sequence <= LastSequence(log)
  {
  }

  lemma FrontIsBelow(log: seq<Event>)
    requires Increasing(log) && log != []
    ensures var front, last := log[..|log| - 1], log[|log| - 1];
            Increasing(front) && last.sequence > 0 && forall e :: e in front ==> e.sequence < last.sequence
  {
  }

  /** Adjacent segments concatenate. */
  lemma {:induction false} BetweenSplits(log: seq<Event>, above: nat, middle: nat, upTo: nat)
    requires Increasing(log) && above <= middle <= upTo
    ensures Between(log, above, upTo) == Between(log, above, middle) + Between(log, middle, upTo)
    decreases |log|
  {
    if log != [] {
      var front, last := log[..|log| - 1], log[|log| - 1];
      FrontIsBelow(log);
      BetweenSplits(front, above, middle, upTo);
      if last.sequence <= middle {
        BetweenIsEmpty(front, middle, upTo);
        assert Between(log, middle, upTo) == [];
      } else {
        assert Between(log, above, middle) == Between(front, above, middle);
      }
    }
  }

  /** The first k events of a segment are the segment up to the k-th of them. */
  lemma {:induction false} BetweenPrefix(log: seq<Event>, above: nat, upTo: nat, k: nat)
    requires Increasing(log) && 0 < k <= |Between(log, above, upTo)|
    ensures var prefix := Between(log, above, upTo)[..k];
            && above < LastSequence(prefix) <= upTo && LastSequence(prefix) <= LastSequence(log)
            && Between(log, above, LastSequence(prefix)) == prefix
    decreases |log|
  {
    var front, last := log[..|log| - 1], log[|log| - 1];
    var all := Between(front, above, upTo);
    if k <= |all| {
      BetweenPrefix(front, above, upTo, k);
      AtMostLast(front);
      assert Between(log, above, upTo)[..k] == all[..k];
    } else {
      BetweenOfEnough(front, above, upTo, last.sequence);
      assert Between(log, above, upTo)[..k] == all + [last];
    }
  }

  // ----- The protocol -----

  /** `received` is the client's; `wire` has been yielded and may still be lost. */
  datatype State = State(
    log: seq<Event>,
    terminal: bool,
    cursor: nat,
    fetched: Option<seq<Event>>,
    wire: seq<Event>,
    received: seq<Event>,
    closed: bool)

  datatype Step =
    | Emit(kind: string, summary: string)     // a managed run's event
    | Append(event: Event)                    // any writer that commits in sequence order
    | SetTerminal(terminal: bool)
    | Fetch                                   // the reader's first query
    | Deliver                                 // its second query, and the batch goes out
    | Receive
    | Reconnect                               // the wire is lost; the client names its last identifier

  function Initial(start: nat): State {
    State([], false, start, None, [], [], false)
  }

  function LastId(received: seq<Event>): Header {
    if received == [] then Absent else Number(received[|received| - 1].sequence)
  }

  function Next(s: State, step: Step, start: nat): State {
    match step
    case Emit(kind, summary) =>
      if ValidEvent(kind, summary) then s.(log := s.log + [Event(LastSequence(s.log) + 10, kind, summary)]) else s
    case Append(event) => if event.sequence > LastSequence(s.log) then s.(log := s.log + [event]) else s
    case SetTerminal(terminal) => s.(terminal := terminal)
    case Fetch =>
      if s.closed || s.fetched.Some? then s
      else s.(fetched := Some(EventsAfter(s.log, s.cursor, BATCH_SIZE)))
    case Deliver =>
      if s.fetched.None? then s
      else s.(fetched := None, wire := s.wire + s.fetched.value,
              cursor := Advance(s.cursor, s.fetched.value), closed := s.terminal)
    case Receive => if s.wire == [] then s else s.(received := s.received + [s.wire[0]], wire := s.wire[1..])
    case Reconnect =>
      match StreamCursor(LastId(s.received), start)
      case None => s
      case Some(cursor) => s.(cursor := cursor, fetched := None, wire := [], closed := false)
  }

  function Run(s: State, schedule: seq<Step>, start: nat): State
    decreases |schedule|
  {
    if schedule == [] then s else Run(Next(s, schedule[0], start), schedule[1..], start)
  }

  predicate Batched(s: State, batch: seq<Event>) {
    batch != [] ==>
      && s.cursor < LastSequence(batch) <= LastSequence(s.log)
      && Between(s.log, s.cursor, LastSequence(batch)) == batch
  }

  predicate Inv(s: State, start: nat) {
    && Increasing(s.log)
    && start <= s.cursor
    && (s.cursor == start || s.cursor <= LastSequence(s.log))
    && s.received + s.wire == Between(s.log, start, s.cursor)
    && s.cursor == Advance(start, s.received + s.wire)
    && (s.fetched.Some? ==> Batched(s, s.fetched.value))
  }

  lemma AppendKeepsInv(s: State, event: Event, start: nat)
    requires Inv(s, start) && event.sequence > LastSequence(s.log)
    ensures Inv(s.(log := s.log + [event]), start)
  {
    var log := s.log + [event];
    assert log[..|s.log|] == s.log;
    AppendKeepsOrder(s.log, event);
    assert Between(log, start, s.cursor) == Between(s.log, start, s.cursor);
    if s.fetched.Some? && s.fetched.value != [] {
      var upTo := LastSequence(s.fetched.value);
      assert Between(log, s.cursor, upTo) == Between(s.log, s.cursor, upTo);
    }
  }

  lemma AppendKeepsOrder(log: seq<Event>, event: Event)
    requires Increasing(log) && event.sequence > LastSequence(log)
    ensures Increasing(log + [event])
  {
    AtMostLast(log);
  }

  lemma FetchKeepsInv(s: State, start: nat)
    requires Inv(s, start)
    ensures Inv(Next(s, Fetch, start), start)
  {
    var batch := EventsAfter(s.log, s.cursor, BATCH_SIZE);
    if batch != [] {
      assert After(s.log, s.cursor)[..|batch|] == batch;
      BetweenPrefix(s.log, s.cursor, LastSequence(s.log), |batch|);
    }
  }

  lemma DeliverKeepsInv(s: State, start: nat)
    requires Inv(s, start)
    ensures Inv(Next(s, Deliver, start), start)
  {
    if s.fetched.Some? && s.fetched.value != [] {
      var batch := s.fetched.value;
      BetweenSplits(s.log, start, s.cursor, LastSequence(batch));
      assert s.received + (s.wire + batch) == (s.received + s.wire) + batch;
    }
  }

  /** What the client holds is the segment up to its last identifier, which is where it resumes. */
  lemma ReceivedIsASegment(s: State, start: nat)
    requires Inv(s, start)
    ensures s.received == Between(s.log, start, Advance(start, s.received))
    ensures StreamCursor(LastId(s.received), start) == Some(Advance(start, s.received))
    ensures s.received != [] ==> LastSequence(s.received) <= LastSequence(s.log)
  {
    if s.received == [] {
      BetweenIsEmpty(s.log, start, start);
    } else {
      var k := |s.received|;
      assert (s.received + s.wire)[..k] == s.received;
      BetweenPrefix(s.log, start, s.cursor, k);
    }
  }

  lemma ReconnectKeepsInv(s: State, start: nat)
    requires Inv(s, start)
    ensures Inv(Next(s, Reconnect, start), start)
  {
    ReceivedIsASegment(s, start);
    assert s.received + [] == s.received;
  }

  lemma ReceiveKeepsInv(s: State, start: nat)
    requires Inv(s, start)
    ensures Inv(Next(s, Receive, start), start)
  {
    if s.wire != [] {
      assert s.received + [s.wire[0]] + s.wire[1..] == s.received + s.wire;
    }
  }

  lemma NextKeepsInv(s: State, step: Step, start: nat)
    requires Inv(s, start)
    ensures Inv(Next(s, step, start), start)
  {
    match step {
      case Emit(kind, summary) =>
        if ValidEvent(kind, summary) { AppendKeepsInv(s, Event(LastSequence(s.log) + 10, kind, summary), start); }
      case Append(event) =>
        if event.sequence > LastSequence(s.log) { AppendKeepsInv(s, event, start); }
      case Fetch => FetchKeepsInv(s, start);
      case Deliver => DeliverKeepsInv(s, start);
      case Receive => ReceiveKeepsInv(s, start);
      case Reconnect => ReconnectKeepsInv(s, start);
      case SetTerminal(terminal) => assert Inv(s.(terminal := terminal), start);
    }
  }

  lemma {:induction false} RunKeepsInv(s: State, schedule: seq<Step>, start: nat)
    requires Inv(s, start)
    ensures Inv(Run(s, schedule, start), start)
    decreases |schedule|
  {
    if schedule != [] {
      NextKeepsInv(s, schedule[0], start);
      RunKeepsInv(Next(s, schedule[0], start), schedule[1..], start);
    }
  }

  lemma InitialInv(start: nat)
    ensures Inv(Initial(start), start)
  {
  }

  /**
   What the client has received is one segment of the log: in order, without a gap and without a
   duplicate, whatever the interleaving of writers, polls, losses and reconnections.
   */
  lemma StreamIsASegment(start: nat, schedule: seq<Step>)
    ensures var s := Run(Initial(start), schedule, start);
            s.received == Between(s.log, start, Advance(start, s.received))
  {
    InitialInv(start);
    RunKeepsInv(Initial(start), schedule, start);
    ReceivedIsASegment(Run(Initial(start), schedule, start), start);
  }

  predicate Complete(s: State, start: nat) {
    s.received + s.wire == After(s.log, start)
  }

  /** A delivery completes the stream exactly when its batch is all that the log now has above the cursor. */
  lemma DeliveryCompletesIff(start: nat, schedule: seq<Step>)
    requires Run(Initial(start), schedule, start).fetched.Some?
    ensures var s := Run(Initial(start), schedule, start);
            Complete(Next(s, Deliver, start), start) <==> |After(s.log, s.cursor)| == |s.fetched.value|
  {
    InitialInv(start);
    RunKeepsInv(Initial(start), schedule, start);
    DeliverCompletesIff(Run(Initial(start), schedule, start), start);
  }

  lemma DeliverCompletesIff(s: State, start: nat)
    requires Inv(s, start) && s.fetched.Some?
    ensures Complete(Next(s, Deliver, start), start) <==> |After(s.log, s.cursor)| == |s.fetched.value|
  {
    var t := Next(s, Deliver, start);
    DeliverKeepsInv(s, start);
    var last := LastSequence(s.log);
    if s.cursor <= last {
      BetweenSplits(s.log, start, s.cursor, last);
      if s.fetched.value != [] {
        BetweenSplits(s.log, s.cursor, t.cursor, last);
      }
    } else {
      AtMostLast(s.log);
      BetweenIsEmpty(s.log, start, s.cursor);
      BetweenIsEmpty(s.log, start, last);
      BetweenIsEmpty(s.log, s.cursor, last);
    }
  }

  /**
   A poll with no writer between its two queries: it completes the stream exactly when at most one
   batch was left, and it closes the stream exactly when the run is terminal, complete or not.
   */
  lemma QuietPoll(start: nat, schedule: seq<Step>)
    requires var s := Run(Initial(start), schedule, start); !s.closed && s.fetched.None?
    ensures var s := Run(Initial(start), schedule, start);
            var t := Next(Next(s, Fetch, start), Deliver, start);
            && (Complete(t, start) <==> |After(s.log, s.cursor)| <= 100)
            && (t.closed <==> s.terminal)
  {
    var s := Run(Initial(start), schedule, start);
    InitialInv(start);
    RunKeepsInv(Initial(start), schedule, start);
    FetchKeepsInv(s, start);
    DeliverCompletesIff(Next(s, Fetch, start), start);
  }

  // ----- The stream of a managed run -----

  predicate OnlyEmits(schedule: seq<Step>) {
    forall step :: step in schedule ==> !step.Append?
  }

  lemma {:induction false} ManagedRunKeepsLog(s: State, schedule: seq<Step>, start: nat)
    requires ManagedLog(s.log) && OnlyEmits(schedule)
    ensures ManagedLog(Run(s, schedule, start).log)
    decreases |schedule|
  {
    if schedule != [] {
      var t := Next(s, schedule[0], start);
      assert ManagedLog(t.log) by {
        assert schedule[0] in schedule;
      }
      ManagedRunKeepsLog(t, schedule[1..], start);
    }
  }

  lemma {:induction false} ManagedBetween(log: seq<Event>, above: nat, upTo: nat)
    requires ManagedLog(log)
    ensures var events := Between(log, above, upTo);
            && (forall i :: 0 <= i < |events| ==> events[i].sequence == 10 * (above / 10 + 1 + i))
            && (10 * |log| <= upTo && above / 10 <= |log| ==> |events| == |log| - above / 10)
            && (10 * |log| <= upTo && above / 10 > |log| ==> events == [])
            && |events| <= if above / 10 <= |log| then |log| - above / 10 else 0
    decreases |log|
  {
    if log != [] {
      var front, last := log[..|log| - 1], log[|log| - 1];
      assert last.sequence == 10 * |log|;
      ManagedBetween(front, above, upTo);
      if above < last.sequence <= upTo {
        assert 10 * |front| <= upTo && above / 10 <= |front|;
      }
    }
  }

  /** The client of a managed run receives consecutive multiples of ten from the first above its cursor. */
  lemma ManagedStreamHasNoGap(start: nat, schedule: seq<Step>)
    requires OnlyEmits(schedule)
    ensures var received := Run(Initial(start), schedule, start).received;
            forall i :: 0 <= i < |received| ==> received[i].sequence == 10 * (start / 10 + 1 + i)
  {
    var s := Run(Initial(start), schedule, start);
    StreamIsASegment(start, schedule);
    ManagedRunKeepsLog(Initial(start), schedule, start);
    ManagedBetween(s.log, start, Advance(start, s.received));
  }

  // ----- Two ways to close too early -----

  function Emits(n: nat): seq<Step> {
    if n == 0 then [] else Emits(n - 1) + [Emit("kind", "summary")]
  }

  lemma {:induction false} RunConcat(s: State, first: seq<Step>, second: seq<Step>, start: nat)
    ensures Run(s, first + second, start) == Run(Run(s, first, start), second, start)
    decreases |first|
  {
    if first == [] {
      assert first + second == second;
    } else {
      assert (first + second)[1..] == first[1..] + second;
      RunConcat(Next(s, first[0], start), first[1..], second, start);
    }
  }

  lemma {:induction false} RunEmits(n: nat)
    ensures var s := Run(Initial(0), Emits(n), 0);
            && |s.log| == n && ManagedLog(s.log)
            && s == Initial(0).(log := s.log)
  {
    if n > 0 {
      RunEmits(n - 1);
      RunConcat(Initial(0), Emits(n - 1), [Emit("kind", "summary")], 0);
      var s := Run(Initial(0), Emits(n - 1), 0);
      assert Run(s, [Emit("kind", "summary")], 0) == Next(s, Emit("kind", "summary"), 0);
    }
  }

  /** Asking for the events of a finished run with more than one batch of them yields one batch and closes. */
  lemma LongFinishedRunIsCut(n: nat)
    requires n > 100
    ensures var s := Run(Initial(0), Emits(n) + [SetTerminal(true)], 0);
            var t := Next(Next(s, Fetch, 0), Deliver, 0);
            t.closed && |t.wire| == 100 && !Complete(t, 0)
  {
    RunEmits(n);
    RunConcat(Initial(0), Emits(n), [SetTerminal(true)], 0);
    var s := Run(Initial(0), Emits(n), 0);
    assert Run(s, [SetTerminal(true)], 0) == Next(s, SetTerminal(true), 0);
    ManagedBetween(s.log, 0, LastSequence(s.log));
    QuietPoll(0, Emits(n) + [SetTerminal(true)]);
  }

  /** An event and a terminal status that land between the reader's two queries: closed without the event. */
  lemma LastEventCanBeMissed()
    ensures var s := Run(Initial(0), [Fetch, Emit("kind", "summary"), SetTerminal(true), Deliver], 0);
            s.closed && s.wire == [] && |s.log| == 1
  {
    var steps := [Fetch, Emit("kind", "summary"), SetTerminal(true), Deliver];
    var s1 := Next(Initial(0), steps[0], 0);
    var s2 := Next(s1, steps[1], 0);
    var s3 := Next(s2, steps[2], 0);
    assert Run(s3, steps[3..], 0) == Next(s3, steps[3], 0);
    assert Run(s2, steps[2..], 0) == Run(s3, steps[2..][1..], 0);
    assert Run(s1, steps[1..], 0) == Run(s2, steps[1..][1..], 0);
  }
}
