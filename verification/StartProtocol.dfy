/**
 The start protocol of one run: any number of claimers over one attempt row and a Temporal
 server that refuses a second start of the same workflow id.
 */
module StartProtocol {
  import opened Base
  import opened WorkflowStarts

  datatype Claimer =
    | ClockRead(now: Time)                        // before the row lock
    | HandingOff(token: Uuid)                     // claimed, Temporal not heard from
    | Confirmed(token: Uuid)                      // will record STARTED
    | Refused(token: Uuid, category: string)      // will record FAILED

  datatype State = State(
    row: AttemptRow,
    held: bool,                   // Temporal holds the workflow id
    starts: nat,                  // workflow executions that Temporal has begun for the id
    claimers: map<nat, Claimer>,
    granted: seq<Uuid>)           // tokens in the order they were granted

  datatype Step =
    | ReadClock(p: nat, now: Time)
    | TakeClaim(p: nat, token: Uuid)
    | CallTemporal(p: nat, answer: Answer)
    | Record(p: nat)
    | Crash(p: nat)

  const INITIAL := State(NEW_ATTEMPT, false, 0, map[], [])

  function Temporal(s: State, p: nat, answer: Answer): State
    requires p in s.claimers && s.claimers[p].HandingOff?
  {
    var token := s.claimers[p].token;
    match answer
    case Answered =>
      s.(held := true, starts := if s.held then s.starts else s.starts + 1,
         claimers := s.claimers[p := Confirmed(token)])
    case Unheard(c) =>
      s.(held := true, starts := if s.held then s.starts else s.starts + 1,
         claimers := s.claimers[p := Claimer.Refused(token, c)])
    case Unreachable(c) => s.(claimers := s.claimers[p := Claimer.Refused(token, c)])
  }

  function RecordRow(row: AttemptRow, c: Claimer): AttemptRow {
    match c
    case Confirmed(token) => MarkStarted(row, token)
    case Refused(token, category) => MarkFailed(row, token, category)
    case _ => row
  }

  function Next(s: State, step: Step, duration: Time): State {
    match step
    case ReadClock(p, now) => if p in s.claimers then s else s.(claimers := s.claimers[p := ClockRead(now)])
    case TakeClaim(p, token) =>
      if p in s.claimers && s.claimers[p].ClockRead? && token !in s.granted then
        var (row, granted) := Claim(s.row, s.claimers[p].now, duration, token);
        if granted
        then s.(row := row, claimers := s.claimers[p := HandingOff(token)], granted := s.granted + [token])
        else s.(claimers := s.claimers - {p})
      else s
    case CallTemporal(p, answer) =>
      if p in s.claimers && s.claimers[p].HandingOff? then Temporal(s, p, answer) else s
    case Record(p) =>
      if p in s.claimers && (s.claimers[p].Confirmed? || s.claimers[p].Refused?)
      then s.(row := RecordRow(s.row, s.claimers[p]), claimers := s.claimers - {p})
      else s
    case Crash(p) => s.(claimers := s.claimers - {p})
  }

  function Run(s: State, schedule: seq<Step>, duration: Time): State
    decreases |schedule|
  {
    if schedule == [] then s else Run(Next(s, schedule[0], duration), schedule[1..], duration)
  }

  // ----- Safety over every interleaving -----

  predicate Fenced(s: State, p: nat) {
    p in s.claimers && !s.claimers[p].ClockRead?
  }

  predicate Inv(s: State) {
    && (s.row.status.Started? ==> s.held && s.row.lease.None? && s.granted != [])
    && (s.row.status.StartFailed? ==> s.row.lease.None?)
    && s.starts == (if s.held then 1 else 0)
    && s.row.attempts == |s.granted|
    && s.row.token == (if s.granted == [] then None else Some(s.granted[|s.granted| - 1]))
    && NoDuplicates(s.granted)
    && (forall p :: p in s.claimers && Fenced(s, p) ==> s.claimers[p].token in s.granted)
    && (forall p :: p in s.claimers && s.claimers[p].Confirmed? ==> s.held)
    && (forall p, q :: p in s.claimers && q in s.claimers && Fenced(s, p) && Fenced(s, q) && p != q ==>
          s.claimers[p].token != s.claimers[q].token)
    && (s.row.status.Started? ==>
          forall p :: p in s.claimers && Fenced(s, p) ==> Some(s.claimers[p].token) != s.row.token)
  }

  lemma TakeClaimKeepsInv(s: State, p: nat, token: Uuid, duration: Time)
    requires Inv(s)
    ensures Inv(Next(s, TakeClaim(p, token), duration))
  {
  }

  lemma CallTemporalKeepsInv(s: State, p: nat, answer: Answer)
    requires Inv(s)
    ensures Inv(Next(s, CallTemporal(p, answer), 0))
  {
  }

  lemma RecordKeepsInv(s: State, p: nat)
    requires Inv(s)
    ensures Inv(Next(s, Record(p), 0))
  {
  }

  lemma NextKeepsInv(s: State, step: Step, duration: Time)
    requires Inv(s)
    ensures Inv(Next(s, step, duration))
  {
    match step {
      case TakeClaim(p, token) => TakeClaimKeepsInv(s, p, token, duration);
      case CallTemporal(p, answer) => CallTemporalKeepsInv(s, p, answer);
      case Record(p) => RecordKeepsInv(s, p);
      case _ =>
    }
  }

  lemma {:induction false} RunKeepsInv(s: State, schedule: seq<Step>, duration: Time)
    requires Inv(s)
    ensures Inv(Run(s, schedule, duration))
    decreases |schedule|
  {
    if schedule != [] {
      NextKeepsInv(s, schedule[0], duration);
      RunKeepsInv(Next(s, schedule[0], duration), schedule[1..], duration);
    }
  }

  /** STARTED only when Temporal holds the id, at most one execution, and one attempt per token. */
  lemma StartsAreSafe(schedule: seq<Step>, duration: Time)
    ensures var s := Run(INITIAL, schedule, duration);
            && (s.row.status.Started? ==> s.held)
            && s.starts <= 1 && (s.starts == 1 <==> s.held)
            && s.row.attempts == |s.granted| && NoDuplicates(s.granted)
  {
    RunKeepsInv(INITIAL, schedule, duration);
  }

  lemma {:induction false} StartedFrom(s: State, more: seq<Step>, duration: Time)
    requires Inv(s) && s.row.status.Started?
    ensures Run(s, more, duration).row == s.row && Run(s, more, duration).granted == s.granted
    decreases |more|
  {
    if more != [] {
      NextKeepsInv(s, more[0], duration);
      StartedFrom(Next(s, more[0], duration), more[1..], duration);
    }
  }

  lemma {:induction false} RunConcat(s: State, first: seq<Step>, second: seq<Step>, duration: Time)
    ensures Run(s, first + second, duration) == Run(Run(s, first, duration), second, duration)
    decreases |first|
  {
    if first == [] {
      assert first + second == second;
    } else {
      assert (first + second)[1..] == first[1..] + second;
      RunConcat(Next(s, first[0], duration), first[1..], second, duration);
    }
  }

  /** STARTED is never left: the row is frozen and no further token is granted. */
  lemma StartedIsFinal(schedule: seq<Step>, more: seq<Step>, duration: Time)
    requires Run(INITIAL, schedule, duration).row.status.Started?
    ensures Run(INITIAL, schedule + more, duration).row == Run(INITIAL, schedule, duration).row
    ensures Run(INITIAL, schedule + more, duration).granted == Run(INITIAL, schedule, duration).granted
  {
    RunKeepsInv(INITIAL, schedule, duration);
    RunConcat(INITIAL, schedule, more, duration);
    StartedFrom(Run(INITIAL, schedule, duration), more, duration);
  }

  /** A write takes effect exactly when its token is the last one granted; a superseded one is inert. */
  lemma SupersededWritesAreInert(schedule: seq<Step>, p: nat, duration: Time)
    requires var s := Run(INITIAL, schedule, duration);
             p in s.claimers && (s.claimers[p].Confirmed? || s.claimers[p].Refused?)
    ensures var s := Run(INITIAL, schedule, duration);
            var s' := Next(s, Record(p), duration);
            && s.granted != []
            && (if s.claimers[p].token == s.granted[|s.granted| - 1]
                then
                  && s'.row.status == (if s.claimers[p].Confirmed? then Started else StartFailed)
                  && s'.row.error == (if s.claimers[p].Confirmed? then None else Some(s.claimers[p].category))
                  && s'.row.lease == None && s'.row.token == s.row.token && s'.row.attempts == s.row.attempts
                else s'.row == s.row)
  {
    RunKeepsInv(INITIAL, schedule, duration);
    assert Fenced(Run(INITIAL, schedule, duration), p);
  }

  /** A claim is granted exactly on a row that is not STARTED and has no lease beyond the clock that was read. */
  lemma ClaimIsGrantedIff(s: State, p: nat, token: Uuid, duration: Time)
    requires p in s.claimers && s.claimers[p].ClockRead? && token !in s.granted
    ensures var t := Next(s, TakeClaim(p, token), duration);
            var now := s.claimers[p].now;
            if !s.row.status.Started? && (s.row.lease.Some? ==> s.row.lease.value <= now) then
              && t.granted == s.granted + [token]
              && t.row == AttemptRow(StartPending, Some(token), s.row.attempts + 1, Some(now + duration), None)
            else t.granted == s.granted && t.row == s.row
  {
  }

  /** A FAILED attempt can be retried at once: it holds no lease, whatever clock the next claimer has read. */
  lemma FailedIsClaimable(schedule: seq<Step>, p: nat, token: Uuid, duration: Time)
    requires var s := Run(INITIAL, schedule, duration);
             && s.row.status.StartFailed? && token !in s.granted
             && p in s.claimers && s.claimers[p].ClockRead?
    ensures var s := Run(INITIAL, schedule, duration);
            && s.row.lease.None?
            && Next(s, TakeClaim(p, token), duration).granted == s.granted + [token]
  {
    RunKeepsInv(INITIAL, schedule, duration);
    ClaimIsGrantedIff(Run(INITIAL, schedule, duration), p, token, duration);
  }

  /** Temporal holds the id after any call that reaches it, and begins an execution only for the first of them. */
  lemma TemporalAnswers(s: State, p: nat, answer: Answer, duration: Time)
    requires p in s.claimers && s.claimers[p].HandingOff?
    ensures var t := Next(s, CallTemporal(p, answer), duration);
            && t.held == (s.held || answer.Answered? || answer.Unheard?)
            && t.starts == s.starts + (if s.held || answer.Unreachable? then 0 else 1)
            && t.row == s.row && t.granted == s.granted && p in t.claimers
            && t.claimers[p] == if answer.Answered? then Confirmed(s.claimers[p].token)
                                else Claimer.Refused(s.claimers[p].token, answer.category)
  {
  }

  /** One start() that nothing interrupts. */
  function Trip(s: State, p: nat, now: Time, token: Uuid, answer: Answer, duration: Time): State {
    var claimed := Next(Next(s, ReadClock(p, now), duration), TakeClaim(p, token), duration);
    Next(Next(claimed, CallTemporal(p, answer), duration), Record(p), duration)
  }

  /** On the row it is the coordinator's start. */
  lemma TripIsStart(s: State, p: nat, now: Time, token: Uuid, answer: Answer, duration: Time)
    requires p !in s.claimers && token !in s.granted
    ensures var t := Trip(s, p, now, token, answer, duration);
            var (row, outcome) := StartRow(s.row, now, duration, token, answer);
            && t.row == row && t.claimers == s.claimers
            && t.held == (s.held || (!outcome.Skipped? && !answer.Unreachable?))
            && t.granted == s.granted + if outcome.Skipped? then [] else [token]
  {
    var read := Next(s, ReadClock(p, now), duration);
    var claimed := Next(read, TakeClaim(p, token), duration);
    if Claim(s.row, now, duration, token).1 {
      TemporalAnswers(claimed, p, answer, duration);
      assert read.claimers - {p} == s.claimers;
    } else {
      assert claimed.claimers == s.claimers;
    }
  }

  /** A crash leaves the row to its lease; the next start after that finishes it, with one execution in all. */
  lemma CrashedStartIsResumed(schedule: seq<Step>, p: nat, q: nat, now: Time, token: Uuid, duration: Time)
    requires var s := Run(INITIAL, schedule, duration);
             && p in s.claimers && q !in s.claimers && q != p && token !in s.granted && !s.row.status.Started?
             && (s.row.lease.Some? ==> s.row.lease.value <= now)
    ensures var s := Next(Run(INITIAL, schedule, duration), Crash(p), duration);
            var t := Trip(s, q, now, token, Answered, duration);
            && p !in s.claimers && s.row == Run(INITIAL, schedule, duration).row
            && t.row == AttemptRow(Started, Some(token), s.row.attempts + 1, None, None)
            && t.held && t.starts == 1
  {
    var s := Run(INITIAL, schedule, duration);
    RunKeepsInv(INITIAL, schedule, duration);
    var crashed := Next(s, Crash(p), duration);
    NextKeepsInv(s, Crash(p), duration);
    TripIsStart(crashed, q, now, token, Answered, duration);
    var read := Next(crashed, ReadClock(q, now), duration);
    var claimed := Next(read, TakeClaim(q, token), duration);
    var called := Next(claimed, CallTemporal(q, Answered), duration);
    NextKeepsInv(crashed, ReadClock(q, now), duration);
    NextKeepsInv(read, TakeClaim(q, token), duration);
    NextKeepsInv(claimed, CallTemporal(q, Answered), duration);
    NextKeepsInv(called, Record(q), duration);
  }

  // ----- Lease spacing, with clocks that need not be monotone -----

  /** The write of a claimer that still owns the row, which releases the lease. */
  predicate Completing(s: State, step: Step) {
    && step.Record? && step.p in s.claimers
    && (s.claimers[step.p].Confirmed? || s.claimers[step.p].Refused?)
    && s.row.token == Some(s.claimers[step.p].token)
  }

  predicate NothingCompletes(s: State, schedule: seq<Step>, duration: Time)
    decreases |schedule|
  {
    schedule == [] ||
    (!Completing(s, schedule[0]) && NothingCompletes(Next(s, schedule[0], duration), schedule[1..], duration))
  }

  /** The step hands out a new token. */
  predicate Granting(s: State, step: Step, duration: Time) {
    && step.TakeClaim? && step.p in s.claimers && s.claimers[step.p].ClockRead?
    && Next(s, step, duration).granted != s.granted
  }

  /** The clock readings of the claims that the schedule grants, in order. */
  function Grants(s: State, schedule: seq<Step>, duration: Time): seq<Time>
    decreases |schedule|
  {
    if schedule == [] then []
    else
      (if Granting(s, schedule[0], duration) then [s.claimers[schedule[0].p].now] else [])
      + Grants(Next(s, schedule[0], duration), schedule[1..], duration)
  }

  /** A grant waits for the lease and takes a new one; without a completing write nothing else moves the lease. */
  lemma GrantWaitsForLease(s: State, step: Step, duration: Time)
    requires !Completing(s, step)
    ensures var next := Next(s, step, duration);
            if Granting(s, step, duration) then
              && (s.row.lease.Some? ==> s.claimers[step.p].now >= s.row.lease.value)
              && next.row.lease == Some(s.claimers[step.p].now + duration)
            else next.row.lease == s.row.lease
  {
  }

  lemma {:induction false} GrantsFollowLeases(s: State, schedule: seq<Step>, duration: Time)
    requires NothingCompletes(s, schedule, duration)
    ensures var g := Grants(s, schedule, duration);
            && (g != [] && s.row.lease.Some? ==> g[0] >= s.row.lease.value)
            && (forall i :: 0 <= i < |g| - 1 ==> g[i + 1] >= g[i] + duration)
    decreases |schedule|
  {
    if schedule != [] {
      var next := Next(s, schedule[0], duration);
      GrantWaitsForLease(s, schedule[0], duration);
      GrantsFollowLeases(next, schedule[1..], duration);
      var rest := Grants(next, schedule[1..], duration);
      var g := Grants(s, schedule, duration);
      forall i | 0 <= i < |g| - 1 ensures g[i + 1] >= g[i] + duration {
        if |g| > |rest| && i > 0 {
          assert rest[i - 1 + 1] >= rest[i - 1] + duration;
        }
      }
    }
  }

  lemma {:induction false} Accumulate(g: seq<Time>, duration: Time, k: nat)
    requires k < |g| && forall i :: 0 <= i < |g| - 1 ==> g[i + 1] >= g[i] + duration
    ensures g[k] - g[0] >= k * duration
  {
    if k > 0 {
      Accumulate(g, duration, k - 1);
      assert g[k - 1 + 1] >= g[k - 1] + duration;
    }
  }

  /** Claims granted with no completing write in between are a lease apart on the clocks that were read. */
  lemma LeaseSpacing(before: seq<Step>, schedule: seq<Step>, duration: Time)
    requires NothingCompletes(Run(INITIAL, before, duration), schedule, duration)
    ensures var g := Grants(Run(INITIAL, before, duration), schedule, duration);
            g != [] ==> g[|g| - 1] - g[0] >= (|g| - 1) * duration
  {
    var s := Run(INITIAL, before, duration);
    GrantsFollowLeases(s, schedule, duration);
    if Grants(s, schedule, duration) != [] {
      Accumulate(Grants(s, schedule, duration), duration, |Grants(s, schedule, duration)| - 1);
    }
  }
}
