/**
 Reconnecting as a way to catch up. A stream can close after one batch, or lose what is on the wire;
 each reconnection starts behind the last identifier that the client received.
 */
module StreamRecovery {
  import opened Base
  import opened EventStream

  function Receives(n: nat): seq<Step> {
    if n == 0 then [] else [Receive] + Receives(n - 1)
  }

  /** One reconnection, one poll, and the time to read a full batch off the wire. */
  function Round(): seq<Step> {
    [Reconnect, Fetch, Deliver] + Receives(100)
  }

  function Rounds(n: nat): seq<Step> {
    if n == 0 then [] else Round() + Rounds(n - 1)
  }

  lemma {:induction false} ReceivesDrain(s: State, n: nat, start: nat)
    ensures var taken := if n <= |s.wire| then n else |s.wire|;
            Run(s, Receives(n), start) == s.(received := s.received + s.wire[..taken], wire := s.wire[taken..])
    decreases n
  {
    if n > 0 {
      var t := Next(s, Receive, start);
      assert Receives(n)[1..] == Receives(n - 1);
      ReceivesDrain(t, n - 1, start);
      if s.wire != [] {
        var taken := if n <= |s.wire| then n else |s.wire|;
        assert s.wire[..taken] == [s.wire[0]] + s.wire[1..][..taken - 1];
        assert s.wire[1..][taken - 1..] == s.wire[taken..];
      }
    }
  }

  lemma RunThree(s: State, a: Step, b: Step, c: Step, rest: seq<Step>, start: nat)
    ensures Run(s, [a, b, c] + rest, start) == Run(Next(Next(Next(s, a, start), b, start), c, start), rest, start)
  {
    var s1 := Next(s, a, start);
    assert ([a, b, c] + rest)[1..] == [b, c] + rest;
    assert ([b, c] + rest)[1..] == [c] + rest;
    assert ([c] + rest)[1..] == rest;
    assert Run(s1, [b, c] + rest, start) == Run(Next(s1, b, start), [c] + rest, start);
  }

  /** What the client holds and what the log has behind it make up the whole stream. */
  lemma HeldAndAhead(s: State, start: nat)
    requires Inv(s, start)
    ensures After(s.log, start) == s.received + After(s.log, Advance(start, s.received))
  {
    ReceivedIsASegment(s, start);
    var cursor, last := Advance(start, s.received), LastSequence(s.log);
    if cursor <= last {
      BetweenSplits(s.log, start, cursor, last);
    } else {
      assert s.received == [] && cursor == start;
    }
  }

  /** A reconnection puts the next events on the wire, and nothing else. */
  lemma PollFollows(s: State, start: nat)
    requires Inv(s, start)
    ensures var t := Next(Next(Next(s, Reconnect, start), Fetch, start), Deliver, start);
            && Inv(t, start) && t.log == s.log && t.received == s.received && t.closed == s.terminal
            && t.wire == EventsAfter(s.log, Advance(start, s.received), 100)
  {
    ReceivedIsASegment(s, start);
    ReconnectKeepsInv(s, start);
    var connected := Next(s, Reconnect, start);
    FetchKeepsInv(connected, start);
    DeliverKeepsInv(Next(connected, Fetch, start), start);
  }

  /** A round reads everything that its poll puts on the wire. */
  lemma RoundDrains(s: State, start: nat)
    requires Inv(s, start)
    ensures var t := Run(s, Round(), start);
            && Inv(t, start) && t.log == s.log
            && t.received == s.received + EventsAfter(s.log, Advance(start, s.received), 100)
  {
    var polled := Next(Next(Next(s, Reconnect, start), Fetch, start), Deliver, start);
    PollFollows(s, start);
    RunThree(s, Reconnect, Fetch, Deliver, Receives(100), start);
    ReceivesDrain(polled, 100, start);
    assert |polled.wire| <= 100;
    assert polled.wire[..|polled.wire|] == polled.wire;
    RunKeepsInv(polled, Receives(100), start);
  }

  /** The first events of a stream that a client holding k of them has after another hundred. */
  function Held(whole: seq<Event>, k: nat): seq<Event> {
    if k + 100 <= |whole| then whole[..k + 100] else whole
  }

  lemma HeldIsOneMoreBatch(held: seq<Event>, ahead: seq<Event>)
    ensures held + (if |ahead| <= 100 then ahead else ahead[..100]) == Held(held + ahead, |held|)
  {
  }

  /** Each round brings up to a hundred more events, all that are left if there are no more than that. */
  lemma RoundGains(s: State, start: nat)
    requires Inv(s, start)
    ensures var t := Run(s, Round(), start);
            Inv(t, start) && t.log == s.log && t.received == Held(After(s.log, start), |s.received|)
  {
    RoundDrains(s, start);
    HeldAndAhead(s, start);
    HeldIsOneMoreBatch(s.received, After(s.log, Advance(start, s.received)));
  }

  /** One round on the way: at most a hundred fewer events are missing. */
  lemma OneRound(s: State, start: nat, n: nat) returns (t: State)
    requires Inv(s, start) && n > 0 && |After(s.log, start)| <= |s.received| + 100 * n
    ensures Inv(t, start) && t.log == s.log && |After(t.log, start)| <= |t.received| + 100 * (n - 1)
    ensures Run(s, Rounds(n), start) == Run(t, Rounds(n - 1), start)
  {
    t := Run(s, Round(), start);
    RunConcat(s, Round(), Rounds(n - 1), start);
    RoundGains(s, start);
  }

  /** A client that holds as many events as the stream has holds the stream. */
  lemma HeldAll(s: State, start: nat)
    requires Inv(s, start) && |After(s.log, start)| <= |s.received|
    ensures s.received == After(s.log, start)
  {
    HeldAndAhead(s, start);
  }

  lemma {:induction false} RoundsCatchUp(s: State, start: nat, n: nat)
    requires Inv(s, start) && |After(s.log, start)| <= |s.received| + 100 * n
    ensures Run(s, Rounds(n), start).received == After(s.log, start)
    decreases n
  {
    if n == 0 {
      HeldAll(s, start);
    } else {
      var t := OneRound(s, start, n);
      RoundsCatchUp(t, start, n - 1);
    }
  }

  /**
   From any point of any history, whatever has been lost or closed: enough reconnections, one for
   each hundred events that are missing, bring the client every event of the log above its start.
   */
  lemma ReconnectingCatchesUp(start: nat, schedule: seq<Step>, n: nat)
    requires var s := Run(Initial(start), schedule, start);
             |After(s.log, start)| <= |s.received| + 100 * n
    ensures Run(Initial(start), schedule + Rounds(n), start).received ==
              After(Run(Initial(start), schedule, start).log, start)
  {
    InitialInv(start);
    RunKeepsInv(Initial(start), schedule, start);
    RunConcat(Initial(start), schedule, Rounds(n), start);
    RoundsCatchUp(Run(Initial(start), schedule, start), start, n);
  }

  /** A writer appends exactly behind what the log has, and nothing else moves. */
  lemma WriterAppends(s: State, event: Event, kind: string, summary: string, start: nat)
    ensures Next(s, Append(event), start) ==
              if s.log == [] || event.sequence > s.log[|s.log| - 1].sequence
              then (if s.log == [] && event.sequence == 0 then s else s.(log := s.log + [event])) else s
    ensures Next(s, Emit(kind, summary), start) ==
              if 0 < |kind| <= 120 && 0 < |summary| <= 4000
              then s.(log := s.log + [Event((if s.log == [] then 0 else s.log[|s.log| - 1].sequence) + 10,
                                            kind, summary)])
              else s
  {
  }
}
