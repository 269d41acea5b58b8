/**
 When what an evaluation reads off a run satisfies the expectation validator: along every schedule,
 exactly until an assess_risk commits where it should not have been able to.
 */
module VendorSoundness {
  import opened Base
  import opened RunStates
  import opened VendorTables
  import opened VendorOnboarding
  import opened VendorProtocol
  import opened VendorEventLog
  import opened VendorOutcome

  /** A failed begin_review that had already succeeded: events 10 and 15, and the run FAILED. */
  predicate FailedAfterOpening(t: Tables) {
    Opened(t.events) && OpeningLength(t.events) == 2 && Tail(t.events) == 0 && t.run == RunStatus.Failed
  }

  predicate Sound(t: Tables) {
    LogDeterminesStatus(t) || FailedAfterOpening(t)
  }

  /**
   The step commits assess_risk, and either faults it permanently although its policy search has
   already succeeded, or finishes it for good although the log already holds event 15 of a failed review.
   */
  predicate Bad(s: State, step: Step) {
    && Commits(s, step) && s.wf.awaiting.AssessRiskDone?
    && var failure := CallTool(s.db.policy, step.env.policy, "tool_handler_unavailable").1;
       || (step.env.policy.fault.Permanent? && s.db.policy == Some(Usable))
       || (HasSequence(s.db.events, 15) && !(failure.Some? && failure.value.retryable))
  }

  // ----- One step -----

  lemma BeginReviewStaysSound(t: Tables, env: ToolEnv)
    requires BeginLog(t) && Sound(t)
    ensures Sound(BeginReview(t, env).0)
  {
  }

  lemma AssessRiskSoundIff(s: State, env: Env)
    requires s.wf.awaiting.AssessRiskDone? && AssessLog(s.db) && Sound(s.db)
    ensures Sound(AssessRisk(s.db, env.policy).0) <==> !Bad(s, Attempt(Acks, env))
  {
    if LogDeterminesStatus(s.db) {
      AssessRiskStatusIff(s.db, env.policy);
    }
  }

  lemma PerformSoundIff(s: State, env: Env)
    requires Inv(s) && LogInv(s) && Sound(s.db) && AwaitsActivity(s.wf)
    ensures Sound(Perform(s.wf, s.db, env).0) <==> !Bad(s, Attempt(Acks, env))
  {
    match s.wf.awaiting {
      case BeginReviewDone => BeginReviewStaysSound(s.db, env.lookup);
      case AssessRiskDone => AssessRiskSoundIff(s, env);
      case _ => PerformKeepsStatusIff(s, env);
    }
  }

  /** A step takes a sound run to a sound run exactly when it is not a bad one. */
  lemma StepSoundIff(s: State, step: Step)
    requires Inv(s) && LogInv(s) && Sound(s.db)
    ensures Sound(Next(s, step).db) <==> !Bad(s, step)
  {
    if Commits(s, step) {
      CommittedRows(s, step);
      PerformSoundIff(s, step.env);
    } else if step.Attempt? && AwaitsActivity(s.wf) {
      AuditOnlyKeepsLog(s, step.env);
      UncommittedRows(s, step);
    }
  }

  // ----- The validator -----

  lemma RegularLogReads(t: Tables)
    requires LogDeterminesStatus(t) && t.events != []
    ensures TypesUnique(Kinds(t.events))
    ensures LastFailure(t.events).Some? <==> t.run == RunStatus.Failed
    ensures Reportable(t.run) ==> FinalEventFits(t.run, Kinds(t.events)[|t.events| - 1])
  {
    if !t.events[|t.events| - 1].kind.ReviewFailed? {
      NoFailure(t.events);
    }
  }

  lemma SoundReadingIsValid(s: State)
    requires Inv(s) && Sound(s.db) && Reportable(s.db.run)
    ensures ValidateEffects(Read(s.db)).None?
  {
    if LogDeterminesStatus(s.db) {
      RegularLogReads(s.db);
    }
    InvMeansExactlyOnce(s);
  }

  /** What a bad step leaves: a FAILED run whose log does not end in its only failure. */
  lemma BadStepLeaves(s: State, step: Step)
    requires Inv(s) && LogInv(s) && Sound(s.db) && Bad(s, step)
    ensures var t := Next(s, step).db;
            && t.run == RunStatus.Failed && t.events != []
            && ((Assessed(t.events) && Tail(t.events) == 2)
                || (AssessmentFailed(t.events) && OpeningLength(t.events) == 2))
  {
    CommittedRows(s, step);
    AssessRiskKeepsLog(s.db, step.env.policy);
  }

  /** Two failures repeat a type; a failure that is not last, or none at all, does not fit a FAILED run. */
  lemma UnsoundReadingIsRefused(t: Tables)
    requires t.run == RunStatus.Failed && t.events != []
    requires || (Assessed(t.events) && Tail(t.events) == 2)
             || (AssessmentFailed(t.events) && OpeningLength(t.events) == 2)
    ensures ValidateEffects(Read(t)).Some?
  {
    var kinds := Kinds(t.events);
    assert kinds[|kinds| - 1] == t.events[|t.events| - 1].kind;
    if AssessmentFailed(t.events) && OpeningLength(t.events) == 2 {
      assert WithoutPayload(kinds[1]) == WithoutPayload(kinds[2]);
      assert !TypesUnique(kinds);
    } else {
      assert !FinalEventFits(t.run, kinds[|kinds| - 1]);
    }
  }

  lemma BadStepIsRefused(s: State, step: Step)
    requires Inv(s) && LogInv(s) && Sound(s.db) && Bad(s, step)
    ensures !ReadsValid(Next(s, step).db)
  {
    BadStepLeaves(s, step);
    UnsoundReadingIsRefused(Next(s, step).db);
  }

  // ----- Runs -----

  predicate NeverBad(s: State, schedule: seq<Step>)
    decreases |schedule|
  {
    schedule == [] || (!Bad(s, schedule[0]) && NeverBad(Next(s, schedule[0]), schedule[1..]))
  }

  predicate ReadsValid(t: Tables) {
    Reportable(t.run) ==> ValidateEffects(Read(t)).None?
  }

  /** Whenever the run is in a state that an expectation can declare, its reading satisfies the validator. */
  predicate AlwaysReadsValid(s: State, schedule: seq<Step>)
    decreases |schedule|
  {
    ReadsValid(s.db) && (schedule == [] || AlwaysReadsValid(Next(s, schedule[0]), schedule[1..]))
  }

  lemma {:induction false} ReadsValidFrom(s: State, schedule: seq<Step>)
    requires Inv(s) && LogInv(s) && Sound(s.db)
    ensures AlwaysReadsValid(s, schedule) <==> NeverBad(s, schedule)
    ensures NeverBad(s, schedule) ==> ReadsValid(Run(s, schedule).db)
    decreases |schedule|
  {
    if Reportable(s.db.run) {
      SoundReadingIsValid(s);
    }
    if schedule != [] {
      var t := Next(s, schedule[0]);
      NextKeepsInv(s, schedule[0]);
      NextKeepsLog(s, schedule[0]);
      StepSoundIff(s, schedule[0]);
      if Bad(s, schedule[0]) {
        BadStepIsRefused(s, schedule[0]);
        assert !AlwaysReadsValid(t, schedule[1..]);
      } else {
        ReadsValidFrom(t, schedule[1..]);
      }
    }
  }

  /** Every reading along the run satisfies the validator exactly when no step of the schedule is bad. */
  lemma ReadingsAreValidIff(jurisdiction: string, schedule: seq<Step>)
    ensures AlwaysReadsValid(InitialState(jurisdiction), schedule) <==> NeverBad(InitialState(jurisdiction), schedule)
  {
    ReadsValidFrom(InitialState(jurisdiction), schedule);
  }

  /** In particular the last reading does, and a schedule without permanent faults has no bad step. */
  lemma ReadingsAreValid(jurisdiction: string, schedule: seq<Step>)
    requires NeverBad(InitialState(jurisdiction), schedule) || NoPermanentFault(schedule)
    requires Reportable(Run(InitialState(jurisdiction), schedule).db.run)
    ensures ValidateEffects(Read(Run(InitialState(jurisdiction), schedule).db)).None?
  {
    if NoPermanentFault(schedule) {
      WithoutPermanentFaults(InitialState(jurisdiction), schedule);
      PrecedingFaultsAreNotBad(InitialState(jurisdiction), schedule);
    }
    ReadsValidFrom(InitialState(jurisdiction), schedule);
  }

  /** While every fault precedes the success of its tool, no log gets event 15 after event 10. */
  lemma {:induction false} PrecedingFaultsAreNotBad(s: State, schedule: seq<Step>)
    requires Inv(s) && LogInv(s) && LogDeterminesStatus(s.db) && FaultsPrecedeSuccess(s, schedule)
    ensures NeverBad(s, schedule)
    decreases |schedule|
  {
    if schedule != [] {
      NextKeepsInv(s, schedule[0]);
      NextKeepsLog(s, schedule[0]);
      StepKeepsStatusIff(s, schedule[0]);
      StepSoundIff(s, schedule[0]);
      PrecedingFaultsAreNotBad(Next(s, schedule[0]), schedule[1..]);
    }
  }

  // ----- One history on each side -----

  const POLICY_FAULT := CALM.(policy := ToolEnv(Permanent("invalid_input"), Usable, false, ""))

  lemma CalmStart(jurisdiction: string)
    ensures var s := Next(InitialState(jurisdiction), Attempt(Acks, CALM));
            && s.wf == INITIAL.(phase := AssessingRisk, awaiting := AssessRiskDone)
            && s.attempt == 0 && s.db.run == RunStatus.Running && s.db.policy.None?
            && s.db.events == [Event(10, ReviewStarted)]
  {
  }

  lemma AssessedWithoutAck(s: State)
    requires s.wf.awaiting.AssessRiskDone? && s.attempt == 0 && s.db.policy.None?
    requires s.db.events == [Event(10, ReviewStarted)]
    ensures var t := Next(s, Attempt(LosesAck, CALM));
            && t.wf == s.wf && t.attempt == 1 && t.db.policy == Some(Usable)
            && t.db.events == ASSESSED
  {
  }

  lemma FailedWithoutEvent(s: State)
    requires s.wf.awaiting.AssessRiskDone? && s.attempt == 1 && s.db.policy == Some(Usable)
    requires s.db.events == ASSESSED
    ensures var t := Next(s, Attempt(Acks, POLICY_FAULT));
            && t.wf.awaiting.ActivityFailed? && t.db.run == RunStatus.Failed && t.db.events == s.db.events
            && Bad(s, Attempt(Acks, POLICY_FAULT))
  {
    assert s.db.events[2].sequence == 25;
  }

  const ASSESSED := [Event(10, ReviewStarted), Event(20, RiskAssessed), Event(25, RiskPolicyContext)]

  lemma UnexplainedReading(t: Tables)
    requires NoRequest(t) && t.run == RunStatus.Failed && t.events == ASSESSED
    ensures ValidateEffects(Read(t)) == Some(FailureUnexplained)
  {
    NoFailure(t.events);
    assert Kinds(t.events) == [ReviewStarted, RiskAssessed, RiskPolicyContext];
  }

  /** A permanent fault on a redelivered, already committed assess_risk fails the run with no failure event. */
  lemma FaultAfterSuccessIsUnexplained(jurisdiction: string)
    ensures var schedule := [Attempt(Acks, CALM), Attempt(LosesAck, CALM), Attempt(Acks, POLICY_FAULT)];
            var s := Run(InitialState(jurisdiction), schedule);
            && !NeverBad(InitialState(jurisdiction), schedule)
            && s.db.run == RunStatus.Failed && s.wf.awaiting.ActivityFailed?
            && ValidateEffects(Read(s.db)) == Some(FailureUnexplained)
  {
    var s0 := InitialState(jurisdiction);
    var s1 := Next(s0, Attempt(Acks, CALM));
    var s2 := Next(s1, Attempt(LosesAck, CALM));
    RunThree(s0, Attempt(Acks, CALM), Attempt(LosesAck, CALM), Attempt(Acks, POLICY_FAULT));
    CalmStart(jurisdiction);
    AssessedWithoutAck(s1);
    FailedWithoutEvent(s2);
    NextKeepsInv(s0, Attempt(Acks, CALM));
    NextKeepsInv(s1, Attempt(LosesAck, CALM));
    NextKeepsInv(s2, Attempt(Acks, POLICY_FAULT));
    FailedMeansNoRequest(Next(s2, Attempt(Acks, POLICY_FAULT)));
    UnexplainedReading(Next(s2, Attempt(Acks, POLICY_FAULT)).db);
  }

  lemma FailedMeansNoRequest(s: State)
    requires Inv(s) && s.wf.awaiting.ActivityFailed? && s.db.run == RunStatus.Failed
    ensures NoRequest(s.db)
  {
  }

  lemma RunThree(s: State, a: Step, b: Step, c: Step)
    ensures Run(s, [a, b, c]) == Next(Next(Next(s, a), b), c)
    ensures NeverBad(s, [a, b, c]) ==> !Bad(Next(Next(s, a), b), c)
  {
    assert [a, b, c][1..] == [b, c] && [b, c][1..] == [c];
    assert Run(s, [a, b, c]) == Run(Next(s, a), [b, c]);
    assert Run(Next(s, a), [b, c]) == Run(Next(Next(s, a), b), [c]);
    assert NeverBad(s, [a, b, c]) ==> NeverBad(Next(s, a), [b, c]);
    assert NeverBad(Next(s, a), [b, c]) ==> NeverBad(Next(Next(s, a), b), [c]);
  }

  const LOOKUP_FAULT := CALM.(lookup := ToolEnv(Permanent("invalid_input"), Usable, false, ""))

  /** The same fault on a redelivered begin_review is explained by event 15, so the reading stays valid. */
  lemma FaultOnRedeliveredBeginIsExplained(jurisdiction: string)
    ensures var schedule := [Attempt(LosesAck, CALM), Attempt(Acks, LOOKUP_FAULT)];
            var s := Run(InitialState(jurisdiction), schedule);
            && !FaultsPrecedeSuccess(InitialState(jurisdiction), schedule)
            && s.db.run == RunStatus.Failed && |s.db.events| == 2 && ReadsValid(s.db)
  {
    var s0 := InitialState(jurisdiction);
    var s1 := Next(s0, Attempt(LosesAck, CALM));
    var s2 := Next(s1, Attempt(Acks, LOOKUP_FAULT));
    var schedule := [Attempt(LosesAck, CALM), Attempt(Acks, LOOKUP_FAULT)];
    assert schedule[1..] == [Attempt(Acks, LOOKUP_FAULT)] && schedule[1..][1..] == [];
    assert Run(s1, schedule[1..]) == Run(s2, []);
    assert s1.db.events == [Event(10, ReviewStarted)] && FaultAfterSuccess(s1, Attempt(Acks, LOOKUP_FAULT));
    assert !FaultsPrecedeSuccess(s1, schedule[1..]);
    assert NeverBad(s1, schedule[1..]);
    ReadsValidFrom(s0, schedule);
  }
}
