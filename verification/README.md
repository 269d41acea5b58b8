# Durable workflow control plane: a verified model

A Dafny 4.11 model of what the control plane keeps true across crashes, redelivery, races and
delegation. The tables are values or fields, one committed transaction is one atomic step, and the
theorems range over every schedule of steps. `dafny verify dfyconfig.toml` checks the project.

| file | models |
|---|---|
| `VendorTables`, `VendorActivities`, `VendorOnboarding` | the vendor rows, the five activities statement by statement, the workflow object |
| `VendorProtocol`, `VendorProgress`, `VendorEventLog`, `VendorOutcome`, `VendorSoundness` | workflow times database under every schedule; what gets done and by which step; the event log; what an evaluation reads off the rows, and when that satisfies the expectation validator |
| `ScenarioDrivers` | the scenario validators and the two-pass evaluator against the workflow object |
| `RunRequests`, `WorkflowStarts`, `StartProtocol` | idempotent run creation, the start coordinator, and its lease and fencing-token protocol between claimers |
| `RuntimeState` | pinned budgets, counters, and the rows that the counters bound |
| `Delegation`, `DelegationPolicy`, `DelegationTree`, `DelegationFanOut` | check and create as two transactions; lineage, manifests, tree size, fan-out |
| `CancellationSweep`, `DelegatedCancellation` | the cancellation sweep over any delegation graph, and against delegations that go on around it |
| `ManagedRuns`, `ManagedWorkflow` | one managed run's status under optimistic locking, and the workflow around it |
| `ToolGateway`, `GatewayGates`, `GatewayHistory`, `GatewayRefinement` | governed tool calls as interleaved transactions, which gates stand before a handler, what any history of calls leaves, and the smaller pictures of a call that the budget and the vendor activities keep |
| `EventStream`, `StreamRecovery` | the managed event writer, the paged stream, loss and reconnection, and catching up by reconnecting |
| `FaultInjection`, `FaultRetries` | fault plans, and the vendor activities with their fault points armed |

A class method is proved equal to a function over the rows before it; the lemmas are about those
functions and about runs of them. Beside the main lemmas stand small ones that say in the rows' own
fields when a single step takes effect and what it then writes (`UpdateTakesEffectIff`,
`ClaimIsGrantedIff`, `CallRunsHandlerIff`, `AfterSweep` and their like); they let a reader check the
functions without reading their bodies, and most have no row of their own below. In a step system a step that is not enabled changes nothing, so
"every schedule" means every sequence of steps.

## Assumptions about the environment

- Temporal refuses a second start of the same workflow id, delivers an activity at least once and at
  most three times, runs an update or a signal as one atomic step, and answers an update identifier
  that it has completed before from the first outcome. An exception that is not
  marked non-retryable is retried.
- A transaction is atomic; a row lock or a version column orders the transactions on one row. An
  attempt commits only while the workflow awaits that activity: `request_approval` has no terminal
  guard of its own (`workflows/activities.py:341`).
- Fresh identifiers are fresh; a fingerprint or digest agrees exactly when its content does.
- The worker always configures an MCP adapter. In the gateway the audit database may or may not be
  configured.
- Handlers, providers and schema validation answer arbitrarily: their answers are parameters.
- Tool grant snapshots are written when the run is created and never change.

## Where the code does less than its surroundings suggest

Each of these is a lemma with an exact condition or a concrete history.

- A permanent fault on a redelivered, already committed `assess_risk` fails the run with no
  review.failed event of its own, and so does finishing `assess_risk` after `begin_review` has failed
  permanently behind its own success. Those steps are exactly the ones after which a reading fails the
  expectation validator: `VendorSoundness.ReadingsAreValidIff`, `VendorSoundness.FaultAfterSuccessIsUnexplained`.
  The same fault on a redelivered `begin_review` alone breaks the log's shape but not the validator:
  `VendorSoundness.FaultOnRedeliveredBeginIsExplained`.
- SUCCEEDED of a managed run can be left: `ManagedRuns.SucceededIsLeftIff`.
- The fan-out limit is exceeded by two checks that precede two creations: `DelegationFanOut.FanOutKeptIff`.
- A child whose delegation was checked before a cancellation sweep can be created after it, live below a
  cancelled parent: `DelegatedCancellation.SweepIsFinalIff`, `DelegatedCancellation.LateChildIsLive`.
- Gateway replay comes before the agent, enabled and grant checks and compares arguments, not tools:
  `GatewayHistory.SuccessReplays`, with a history in `GatewayHistory.UngrantedToolReplays`.
- A row that lacked an approval is stored as DENIED, so the replay branch that would ask for the
  approval is never taken, and the key stays denied after the approval is given:
  `GatewayHistory.ReplayNeverAsksForApproval`, `GatewayHistory.DenialOutlivesApproval`, with a history in
  `GatewayHistory.DeniedKeyStaysDenied`.
- The stream closes on a terminal status even when its batch was full, or when an event landed
  between its two queries: `EventStream.LongFinishedRunIsCut`, `EventStream.LastEventCanBeMissed`. Reconnecting makes up for both:
  `StreamRecovery.ReconnectingCatchesUp`.
- A decision's post-commit fault points are visited only by the attempt that commits it, so at most
  one of their triggers ever fires for it: `FaultRetries.DecisionSurvivesEveryTrigger`.

## Model

| member | source | states |
|---|---|---|
| VendorActivities.VendorDatabase.BeginReview | src/agents_should_survive_failure/workflows/activities.py:80-171 | the activity, on any rows and for any tool outcome, is the transaction that the protocol runs |
| VendorActivities.VendorDatabase.AssessRisk | src/agents_should_survive_failure/workflows/activities.py:174-302 | same for the risk assessment: score, policy search, two events |
| VendorActivities.VendorDatabase.RequestApproval | src/agents_should_survive_failure/workflows/activities.py:315-368 | same for the approval request, found or inserted |
| VendorActivities.VendorDatabase.CheckDecision | src/agents_should_survive_failure/workflows/activities.py:379-420 | which guard refuses or replays a decision before the first write |
| VendorActivities.VendorDatabase.RecordDecision | src/agents_should_survive_failure/workflows/activities.py:371-493 | the decision with all of its effects, or a rollback that leaves at most the audited email refusal |
| VendorActivities.VendorDatabase.CancelReview | src/agents_should_survive_failure/workflows/activities.py:496-528 | cancellation of an undecided run and of its pending request |
| VendorActivities.VendorDatabase.AppendEvent | src/agents_should_survive_failure/workflows/activities.py:530-553 | an event is appended once per sequence number |
| VendorActivities.VendorDatabase.RequiredToolFailed | src/agents_should_survive_failure/workflows/activities.py:560-599 | a retryable failure only leaves an audit row; a permanent one fails the run with its event |
| VendorActivities.VendorDatabase.Audit | src/agents_should_survive_failure/workflows/activities.py:601-627 | one audit row per action of the run |
| VendorActivities.VendorDatabase.SendEmail | src/agents_should_survive_failure/tool_gateway.py:674-695 | the approval email is inserted once, or the call raises and changes nothing |
| VendorOnboarding.VendorOnboardingWorkflow.ValidateDecision | src/agents_should_survive_failure/workflows/vendor_onboarding.py:81-94 | accepts exactly in the waiting phase, uncancelled, for the stored request and version, and with no other decision taken; which refusal comes first |
| VendorOnboarding.VendorOnboardingWorkflow.HandleUpdate | src/agents_should_survive_failure/workflows/vendor_onboarding.py:77-94 | an update changes the decision exactly when it is accepted |
| VendorOnboarding.VendorOnboardingWorkflow.HandleCancel | src/agents_should_survive_failure/workflows/vendor_onboarding.py:97-99 | a cancel signal counts only before a decision |
| VendorOnboarding.VendorOnboardingWorkflow.Continue | src/agents_should_survive_failure/workflows/vendor_onboarding.py:31-74 | how the coroutine resumes after each activity |
| VendorProtocol.EffectsExactlyOnce | src/agents_should_survive_failure/workflows/activities.py:314-528 | under every schedule of deaths, lost acks, late commits, updates and signals: at most one request, decision, projection and email, and approved, rejected and cancelled rows agree across all tables |
| VendorProtocol.DecidedRunsAreFrozen | src/agents_should_survive_failure/workflows/activities.py:400-420 | after a verdict or a cancellation no further schedule changes any row |
| VendorProtocol.AcceptedDecisionIsNeverRefused | src/agents_should_survive_failure/workflows/vendor_onboarding.py:55-99 | an accepted update stays the decision, excludes cancellation, and no attempt to record it meets a conflict or a stale version |
| VendorProtocol.DecisionSticks | src/agents_should_survive_failure/workflows/vendor_onboarding.py:77-78 | the decision field is write-once over every run |
| VendorProtocol.RunKeepsInv | src/agents_should_survive_failure/workflows/vendor_onboarding.py:31-74 | where the coroutine stands determines which rows can exist |
| VendorProgress.WaitingWorkflowDecides | src/agents_should_survive_failure/workflows/vendor_onboarding.py:55-94 | wherever the coroutine waits, uncancelled and undecided, a decision for the stored request at version 1 is taken, whatever its verdict, and any other changes nothing |
| VendorProgress.DecisionSettlesIff | src/agents_should_survive_failure/workflows/vendor_onboarding.py:55-75 | from any reachable wait one undisturbed attempt settles the run as decided, exactly unless the email of an approval cannot be sent |
| VendorProgress.RecordOfPending | src/agents_should_survive_failure/workflows/activities.py:371-493 | recording a decision on the open request settles every table, or leaves at most the refused email |
| VendorProgress.SignalCallsOff | src/agents_should_survive_failure/workflows/vendor_onboarding.py:55-63 | from any reachable undecided wait a signal and one attempt call the run off |
| VendorProgress.CalmReviewSettles | src/agents_should_survive_failure/workflows/vendor_onboarding.py:31-75 | an undisturbed review with either verdict ends with exactly the rows of that verdict |
| VendorProgress.CalmCancellation | src/agents_should_survive_failure/workflows/vendor_onboarding.py:31-63 | an undisturbed review that is signalled ends called off |
| VendorProgress.AttemptsAreCapped | src/agents_should_survive_failure/workflows/vendor_onboarding.py:18-19 | an attempt that is not acknowledged is followed by another until the third, which ends the workflow |
| VendorProgress.AcknowledgedActivityMovesOn | src/agents_should_survive_failure/workflows/vendor_onboarding.py:31-75 | what each acknowledged activity commits, and whether the coroutine moves on, retries or ends |
| VendorProgress.DeadAttemptLeavesAudit | src/agents_should_survive_failure/tool_gateway.py:574-640 | an attempt that dies leaves nothing, or the one refused invocation that the audit database has kept |
| VendorProgress.DeadRecordLeavesAudit | src/agents_should_survive_failure/tool_gateway.py:574-640 | while a decision is being recorded that invocation is the denied email of an approval |
| VendorProgress.StalledAttemptCommitsLate | src/agents_should_survive_failure/workflows/activities.py:80-528 | a stalled attempt that commits late leaves the rows of one that committed in time |
| VendorProgress.RiskIsByJurisdiction | src/agents_should_survive_failure/workflows/activities.py:181-184 | under every schedule the stored risk score is that of the vendor's jurisdiction, 25 or 65, or not yet stored |
| VendorProgress.RequiredFailureIsRecorded | src/agents_should_survive_failure/workflows/activities.py:560-599 | a retryable failure is audited; a permanent one fails the run and says why, once per sequence number |
| VendorProgress.DecisionRefusals | src/agents_should_survive_failure/workflows/activities.py:379-420 | what answers a decision on the run's one request, written in the rows' own fields |
| VendorProgress.CancelReviewIsRecorded | src/agents_should_survive_failure/workflows/activities.py:496-528 | a settled run is left alone; any other is called off together with its open request, and nothing else moves |
| VendorProgress.AuditsAreUnique | src/agents_should_survive_failure/workflows/activities.py:601-627 | under every schedule each action of a run is audited at most once |
| VendorEventLog.EventsCommitInOrder | src/agents_should_survive_failure/workflows/activities.py:530-553 | events commit in strictly increasing sequence under every schedule and fault |
| VendorEventLog.StepKeepsStatusIff | src/agents_should_survive_failure/workflows/activities.py:560-599 | a step keeps "the log has a regular shape and fixes the status" exactly when it is not a permanent fault on a tool that has already succeeded |
| VendorEventLog.LogAlwaysDeterminesStatus | src/agents_should_survive_failure/workflows/activities.py:530-599 | without such a step the log is a prefix of 10, 20, 25, 30 closed by 40 or 50, or 15 alone, or 10 and a failed 25, and the last event fixes the run status |
| VendorEventLog.LogAlwaysDeterminesIff | src/agents_should_survive_failure/workflows/activities.py:530-599 | the log fixes the status all along the run exactly when no step faults a tool call after its success |
| VendorOutcome.CollectActual | src/agents_should_survive_failure/evaluation.py:770-885 | the loops that collect an outcome compute the last failure category and every event type |
| VendorOutcome.LastFailureIsLast | src/agents_should_survive_failure/evaluation.py:770-885 | the category that is read is that of the last review.failed event, or there is none |
| VendorOutcome.ValidatorAcceptsIff | src/agents_should_survive_failure/evaluation_scenarios.py:456-512 | on any reading, one that a run produces or not: the validator accepts exactly when status, vendor, approval, counts, failure and last event tell one story |
| VendorSoundness.StepSoundIff | src/agents_should_survive_failure/workflows/activities.py:560-599 | a step keeps the rows readable exactly when it is not one of the named assess_risk commits |
| VendorSoundness.ReadingsAreValidIff | src/agents_should_survive_failure/evaluation_scenarios.py:456-512 | every reading along a run satisfies the state clauses of the expectation validator exactly when the schedule has no such step |
| VendorSoundness.ReadingsAreValid | src/agents_should_survive_failure/evaluation_scenarios.py:456-512 | in particular the last reading does, and always without permanent faults |
| VendorSoundness.BadStepIsRefused | src/agents_should_survive_failure/workflows/activities.py:199-239 | after such a step the run can be reported and the validator refuses it |
| VendorSoundness.FaultAfterSuccessIsUnexplained | src/agents_should_survive_failure/workflows/activities.py:580-599 | a concrete history in which the run is FAILED and the validator finds no failure category |
| VendorSoundness.FaultOnRedeliveredBeginIsExplained | src/agents_should_survive_failure/workflows/activities.py:111-148 | a concrete history in which a fault follows a success and the reading is still valid |
| ScenarioDrivers.AcceptedAttemptIsUnique | src/agents_should_survive_failure/evaluation_scenarios.py:334-404 | a valid driver has at most one accepted attempt, and a replayed key comes after it |
| ScenarioDrivers.EffectFixesAttempt | src/agents_should_survive_failure/evaluation_scenarios.py:193-244 | an expected effect admits exactly one timing, actor, version and key; a forbidden attempt is free in timing and version |
| ScenarioDrivers.DriverShape | src/agents_should_survive_failure/evaluation_scenarios.py:334-404 | the validators admit exactly: undeciding probes only, or one accepted attempt of the declared verdict with undeciding probes before it and its repetitions and conflicts behind it |
| ScenarioDrivers.OthersOnlyRepeat | src/agents_should_survive_failure/evaluation_scenarios.py:193-244 | whatever the phase, the validator accepts from an attempt not marked accepted only the accepted payload again, and only when it is marked idempotent |
| ScenarioDrivers.OthersAreRefused | src/agents_should_survive_failure/evaluation_scenarios.py:193-244 | with a key of its own such an attempt is refused at any phase |
| ScenarioDrivers.ExecuteUpdate | src/agents_should_survive_failure/evaluation.py:614-642 | a completed update identifier is answered without touching the workflow; any other goes to validator and handler |
| ScenarioDrivers.DriveEarlyAttempts | src/agents_should_survive_failure/evaluation.py:645-673 | no early probe of a valid driver is accepted |
| ScenarioDrivers.SendAccepted | src/agents_should_survive_failure/evaluation.py:614-642 | under lost acknowledgements and retries the accepted update lands once, with its own payload, or not at all |
| ScenarioDrivers.DriveAttempt | src/agents_should_survive_failure/evaluation.py:528-611 | one turn of the second pass keeps decision and accepted key in step with the list |
| ScenarioDrivers.DriveReviewed | src/agents_should_survive_failure/evaluation.py:528-611 | the second pass acknowledges exactly the accepted attempt and the replays of its key, and ends with the declared decision |
| ScenarioDrivers.DriveCase | src/agents_should_survive_failure/evaluation.py:528-673 | the first acknowledged attempt is the one marked accepted, later ones replay its key, and the final decision is the declared one unless the deadline passes; a case that expects a failed run sends nothing |
| WorkflowStarts.WorkflowStartCoordinator.ClaimStart | src/agents_should_survive_failure/workflow_starts.py:518-540 | a claim is granted exactly on an unstarted row without a live lease, and fences it with a new token |
| WorkflowStarts.WorkflowStartCoordinator.RecordStarted | src/agents_should_survive_failure/workflow_starts.py:542-553 | only the row's current token writes STARTED |
| WorkflowStarts.WorkflowStartCoordinator.RecordFailed | src/agents_should_survive_failure/workflow_starts.py:555-565 | only the row's current token writes FAILED, with the category and without a lease |
| WorkflowStarts.WorkflowStartCoordinator.Start | src/agents_should_survive_failure/workflow_starts.py:444-497 | one trip touches one row and keeps "STARTED implies Temporal holds the id" |
| WorkflowStarts.StartAgain | src/agents_should_survive_failure/workflow_starts.py:444-565 | after a start that ended unavailable a second start is never skipped, whatever its clock reads, and starts the run if Temporal answers |
| RunRequests.RunRequestTables.CreateOrGetRun | src/agents_should_survive_failure/workflow_starts.py:315-442 | the insert that wins the key writes run, start attempt and snapshot, or nothing when the parent cannot pay; any other request reads the winner |
| RunRequests.OneAttemptPerRun | src/agents_should_survive_failure/workflow_starts.py:153-236 | over every history runs, start attempts and snapshots correspond one to one, and no two callers share a run |
| RunRequests.KeyFixesTheRun | src/agents_should_survive_failure/workflow_starts.py:315-442 | a used key returns its run forever, exactly to requests with the same agent and task, and the run keeps the snapshot of its creation through later grants and revocations |
| RunRequests.GrantsAreForLaterRuns | src/agents_should_survive_failure/workflow_starts.py:367-388 | a grant or a revocation changes what later runs may be given, and nothing that is recorded |
| WorkflowStarts.WorkflowStartCoordinator.Recover | src/agents_should_survive_failure/workflow_starts.py:499-516 | exactly the inspected rows make their trip, and inspected = started + unavailable + left to a live lease |
| WorkflowStarts.RecoveryPartitions | src/agents_should_survive_failure/workflow_starts.py:499-516 | the inspected rows are exactly those now started, those found unavailable and those left to a live lease |
| WorkflowStarts.Inspected | src/agents_should_survive_failure/workflow_starts.py:499-510 | the inspected rows are unstarted and no more than the limit |
| WorkflowStarts.InspectedIsComplete | src/agents_should_survive_failure/workflow_starts.py:499-510 | with room for all of them, every unstarted row is inspected |
| WorkflowStarts.InspectedCount | src/agents_should_survive_failure/workflow_starts.py:499-510 | the pass inspects as many unstarted rows as there are, up to its limit |
| WorkflowStarts.InspectedAreOldest | src/agents_should_survive_failure/workflow_starts.py:499-510 | whatever is inspected, every older unstarted row is inspected too |
| WorkflowStarts.RecoverConverges | src/agents_should_survive_failure/workflow_starts.py:499-516 | with enough room, no live lease and a Temporal that answers, one pass leaves every row STARTED |
| StartProtocol.StartsAreSafe | src/agents_should_survive_failure/workflow_starts.py:444-565 | over every interleaving STARTED implies that Temporal holds the id, at most one execution begins, and attempts counts the distinct tokens granted |
| StartProtocol.StartedIsFinal | src/agents_should_survive_failure/workflow_starts.py:518-565 | a started row is frozen and grants no further token |
| StartProtocol.SupersededWritesAreInert | src/agents_should_survive_failure/workflow_starts.py:542-565 | a completing write takes effect exactly when its token is the last one granted |
| StartProtocol.ClaimIsGrantedIff | src/agents_should_survive_failure/workflow_starts.py:518-540 | a claim is granted exactly on a row that is not STARTED and has no lease beyond the clock that was read, and what it then writes |
| StartProtocol.FailedIsClaimable | src/agents_should_survive_failure/workflow_starts.py:555-565 | in every reachable state a FAILED row has no lease, so the next claim is granted at any clock reading |
| StartProtocol.TripIsStart | src/agents_should_survive_failure/workflow_starts.py:444-497 | four uninterrupted steps of the protocol are the coordinator's start |
| StartProtocol.CrashedStartIsResumed | src/agents_should_survive_failure/workflow_starts.py:444-565 | wherever a claimer crashes, the next start after the lease finishes, with one execution in all |
| StartProtocol.GrantsFollowLeases | src/agents_should_survive_failure/workflow_starts.py:518-540 | with no completing write in between, each grant's clock is at least a lease after the one before |
| StartProtocol.LeaseSpacing | src/agents_should_survive_failure/workflow_starts.py:518-540 | k such grants span at least k-1 leases, whatever order the clocks were read in |
| RuntimeState.ManagedRunState.InitializeBudget | src/agents_should_survive_failure/runtime_state.py:178-195 | limits are pinned once; different ones are a conflict |
| RuntimeState.ManagedRunState.RemainingBudget | src/agents_should_survive_failure/workflows/managed_activities.py:294-301 | what is left is never negative, and the call conflicts exactly when the pinned limits are not the manifest's |
| RuntimeState.ManagedRunState.ConsumeBudget | src/agents_should_survive_failure/runtime_state.py:198-218 | the loop succeeds exactly when every component fits and otherwise changes no counter |
| RuntimeState.ManagedRunState.CallTool | src/agents_should_survive_failure/workflows/managed_activities.py:136-158 | a successful call is paid for, a refused one leaves at most its audit row |
| RuntimeState.ManagedRunState.CallModel | src/agents_should_survive_failure/workflows/managed_activities.py:430-472 | a failing provider still costs the call; tokens that do not fit cost nothing |
| RuntimeState.ManagedRunState.SaveCheckpoint | src/agents_should_survive_failure/workflows/managed_activities.py:218-244 | a name keeps its first content, every save is paid for at the stored size |
| RuntimeState.ManagedRunState.CreateArtifact | src/agents_should_survive_failure/workflows/managed_activities.py:251-274 | stored once per name and content, paid for every time |
| RuntimeState.ManagedRunState.CreateChild | src/agents_should_survive_failure/workflows/managed_activities.py:404-415 | only a new idempotency key pays for a child |
| Delegation.PaidIsCharged | src/agents_should_survive_failure/workflow_starts.py:396-401 | what the delegation model takes from the parent is the charge of the budget model |
| RuntimeState.ChargePays | src/agents_should_survive_failure/runtime_state.py:198-218 | a charge keeps the counters above the effects they bound: calls, bytes, children, and steps above their sum |
| RuntimeState.AffordableInTurn | src/agents_should_survive_failure/workflows/managed_activities.py:430-472 | charging the call and then its tokens succeeds exactly when both together fit |
| RuntimeState.TotalOfPrefix | src/agents_should_survive_failure/runtime_state.py:198-218 | stopping at the first component that does not fit refuses nothing that fits |
| RuntimeState.ChargesByName | src/agents_should_survive_failure/workflows/managed_activities.py:136-472 | which counter each kind of charge moves, and by how much |
| RuntimeState.NameConflictsIff | src/agents_should_survive_failure/runtime_state.py:47-90 | a second save conflicts exactly when the name is stored with another content; it is charged at the stored size and stored once |
| RuntimeState.ArtifactIsStoredOnce | src/agents_should_survive_failure/runtime_state.py:104-155 | a stored artifact is charged at its stored size and not stored again |
| Delegation.AncestorAgents | src/agents_should_survive_failure/workflows/managed_activities.py:361-369 | the ancestor walk terminates and finds the agent of the run and of every ancestor |
| Delegation.BudgetFits | src/agents_should_survive_failure/workflows/managed_activities.py:370-379 | a requested budget passes exactly when each part fits the parent's remainder and the child's manifest |
| Delegation.CheckDelegation | src/agents_should_survive_failure/workflows/managed_activities.py:331-401 | a ticket is issued exactly when the parent is not cancelled and depth, fan-out, ancestors, limits and tools allow it, in the rows' own fields, and what it carries |
| Delegation.LineageOnlyAttenuates | src/agents_should_survive_failure/workflows/managed_activities.py:331-415 | between any two runs of a delegation chain: tools shrink, limits do not grow, the root is the same, depth counts hops, agents differ |
| Delegation.AncestorsDominate | src/agents_should_survive_failure/workflows/managed_activities.py:331-415 | the k-th ancestor holds at least the run's authority |
| Delegation.DistinctAgents | src/agents_should_survive_failure/workflows/managed_activities.py:361-369 | a lineage of depth d involves d+1 registered agents |
| Delegation.DepthIsBounded | src/agents_should_survive_failure/workflows/managed_activities.py:351-353 | no chain is longer than the number of registered agents, nor deeper than 20 |
| DelegationPolicy.DepthWithinManifest | src/agents_should_survive_failure/workflows/managed_activities.py:351-353 | over every interleaving a delegated run is no deeper than its parent's manifest allows |
| DelegationPolicy.LimitsWithinManifest | src/agents_should_survive_failure/workflows/managed_activities.py:370-379 | over every interleaving no run has a higher limit than its own agent's manifest |
| DelegationPolicy.CreationTakesEffectIff | src/agents_should_survive_failure/workflow_starts.py:315-442 | a creation takes effect exactly on an issued ticket, a fresh id, an unused key and a charge that fits, and what it then writes |
| DelegationPolicy.GrantIsForLaterRuns | src/agents_should_survive_failure/workflow_starts.py:367-388 | a grant reaches the runs that start after it; the runs that exist keep their tools |
| DelegationTree.DelegationTreeBound | src/agents_should_survive_failure/workflows/managed_activities.py:351-379 | one delegation at a time: a run with child limit c at depth k has a subtree of at most C(c+d, d) runs, d = 20-k |
| DelegationTree.InterleavedTreeBound | src/agents_should_survive_failure/workflows/managed_activities.py:351-379 | under any interleaving the subtree has at most the sum of c^i for i up to d |
| DelegationTree.NextKeepsCarved | src/agents_should_survive_failure/workflows/managed_activities.py:370-379 | the j-th child's limit is at most c-j |
| DelegationTree.CarvedSumTelescopes | src/agents_should_survive_failure/workflows/managed_activities.py:370-379 | the children's shares add up to one binomial coefficient |
| DelegationTree.DescendsThroughChild | src/agents_should_survive_failure/persistence/models.py:283-307 | every proper descendant lies below one of the delegation rows of its ancestor |
| DelegationFanOut.FanOutKeptIff | src/agents_should_survive_failure/workflows/managed_activities.py:354-360 | a history keeps every manifest's fan-out exactly when each creation still found room |
| DelegationFanOut.OneAtATimeKeepsFanOut | src/agents_should_survive_failure/workflows/managed_activities.py:354-360 | delegating one child at a time is enough for that |
| DelegationFanOut.InterleavedChecksExceedFanOut | src/agents_should_survive_failure/workflows/managed_activities.py:354-415 | two checks before two creations give two children to a manifest that allows one |
| CancellationSweep.RunTable.CancelOnboarding | src/agents_should_survive_failure/api.py:1846-1917 | for any delegation graph, cyclic or not: every reachable run in PENDING, RUNNING or WAITING is cancelled with its summary, ended ones keep their row, and each reachable run is signalled once |
| CancellationSweep.RunTable.Sweep | src/agents_should_survive_failure/api.py:1862-1896 | the level-by-level loop terminates with exactly the reachable runs |
| CancellationSweep.RunTable.SweepLevel | src/agents_should_survive_failure/api.py:1875-1896 | one level sees each child once, in any order |
| CancellationSweep.ClosedHoldsReachable | src/agents_should_survive_failure/api.py:1862-1896 | a set closed under delegation holds every run reachable by any path |
| DelegatedCancellation.ReachIsSubtree | src/agents_should_survive_failure/api.py:1862-1896 | what the loop reaches over the delegation rows is the subtree of the lineage |
| DelegatedCancellation.SweepIsTheLoop | src/agents_should_survive_failure/api.py:1862-1896 | the sweep step changes every status as the loop does |
| DelegatedCancellation.SweepIsFinalIff | src/agents_should_survive_failure/api.py:1862-1896 | after a sweep no run below is ever live exactly when no later step creates a child below or restarts an ended descendant |
| DelegatedCancellation.LateChildrenWereCheckedBefore | src/agents_should_survive_failure/workflows/managed_activities.py:331-415 | a child that appears below a swept parent was checked before the sweep |
| DelegatedCancellation.LateChildIsLive | src/agents_should_survive_failure/workflows/managed_activities.py:331-415 | a concrete history: check, sweep, create, and the child is live |
| ManagedRuns.CancelledIsFinal | src/agents_should_survive_failure/workflows/managed_activities.py:505-575 | no redelivered execute, late finish, approval or further cancel changes a cancelled run |
| ManagedRuns.ApprovalIsWriteOnce | src/agents_should_survive_failure/api.py:927-954 | a recorded approval decision never changes |
| ManagedRuns.SucceededIsLeftIff | src/agents_should_survive_failure/workflows/managed_activities.py:515-536 | SUCCEEDED is left exactly by a redelivered execute or a first approval request |
| ManagedRuns.SucceededCanBeReopened | src/agents_should_survive_failure/workflows/managed_activities.py:515-536 | a concrete history that reopens a succeeded run |
| ManagedRuns.CancelTakesEffect | src/agents_should_survive_failure/api.py:1862-1864 | an undisturbed cancellation cancels exactly a run in PENDING, RUNNING or WAITING |
| ManagedRuns.DecisionTakesEffect | src/agents_should_survive_failure/api.py:927-954 | an undisturbed decision is recorded exactly on an awaited approval, and lets a waiting run go on |
| ManagedWorkflow.ManagedAgentWorkflow.Start | src/agents_should_survive_failure/workflows/managed_agent.py:28-32 | a workflow that was signalled before it began runs no activity |
| ManagedWorkflow.ManagedAgentWorkflow.Continue | src/agents_should_survive_failure/workflows/managed_agent.py:33-43 | the reply decides between cancelled and completed, and is the result |
| ManagedWorkflow.CompletedHasFinished | src/agents_should_survive_failure/workflows/managed_activities.py:562-573 | a completed workflow returns the output of the awaited attempt, whose last transaction found the run not cancelled and left it SUCCEEDED with that output |
| ManagedWorkflow.CancelledNeverCompletes | src/agents_should_survive_failure/workflows/managed_agent.py:28-47 | once the run is cancelled before the awaited attempt has finished, no redelivered or late attempt completes the workflow or changes the row |
| ManagedWorkflow.UndisturbedRunCompletes | src/agents_should_survive_failure/workflows/managed_agent.py:28-43 | an undisturbed run: its output is on the row and is what the workflow returns |
| ManagedWorkflow.CancelledRunEndsWorkflow | src/agents_should_survive_failure/workflows/managed_agent.py:28-43 | a redelivered attempt finds the run cancelled and ends the workflow as cancelled |
| ManagedWorkflow.EarlySignalStops | src/agents_should_survive_failure/workflows/managed_agent.py:28-47 | after a signal before its start no schedule delivers an attempt or returns a result |
| ToolGateway.Gateway.InvokeTool | src/agents_should_survive_failure/tool_gateway.py:269-458 | the call, on any tables, is the transaction that the histories run |
| ToolGateway.Gateway.ReplayStored | src/agents_should_survive_failure/tool_gateway.py:309-326 | the answer of a used key |
| ToolGateway.Gateway.Admit | src/agents_should_survive_failure/tool_gateway.py:328-416 | the first failing check in source order: registration, agent, enabled flag and grant, approval, handler, arguments, pinned version |
| ToolGateway.Gateway.HasApprovedDecision | src/agents_should_survive_failure/tool_gateway.py:715-725 | an approval counts when it is committed or was written earlier in the same transaction |
| ToolGateway.Gateway.Handle | src/agents_should_survive_failure/tool_gateway.py:417-458 | binds the name unless the run has bound it; the row, the binding and the email that an answer, a timeout or a failure leaves pending |
| ToolGateway.Gateway.RecordTerminalAttempt | src/agents_should_survive_failure/tool_gateway.py:574-640 | a terminal attempt is committed at once with an audit database, and otherwise waits for the caller |
| ToolGateway.Gateway.InjectFailure | src/agents_should_survive_failure/tool_gateway.py:227-267 | an injected failure is recorded only under an unused key |
| ToolGateway.Invoke | src/agents_should_survive_failure/tool_gateway.py:269-458 | a call commits nothing of its own but a terminal row, keeps every stored row, and runs a handler only under an unused key |
| ToolGateway.RunKeepsInv | src/agents_should_survive_failure/tool_gateway.py:269-490 | over every interleaving of pending transactions: successes are granted and pinned, emails are gated, pending rows exclude each other |
| GatewayGates.HandlerRunsIff | src/agents_should_survive_failure/tool_gateway.py:269-458 | a step runs a handler exactly for a call under a free key and name whose definition is registered, enabled and in the snapshot, whose agent is registered, whose approval is visible if required, whose handler exists, whose arguments are valid and whose name is not bound to another version |
| GatewayGates.EveryExecutionWasGated | src/agents_should_survive_failure/tool_gateway.py:328-416 | every handler run of every history happened at a step at which all those gates were open |
| GatewayGates.RefusalIsRecorded | src/agents_should_survive_failure/tool_gateway.py:328-416 | the row, the category and the error of each refusal, a disabled tool for one being DENIED and ToolDenied |
| GatewayGates.HandlerEndIsRecorded | src/agents_should_survive_failure/tool_gateway.py:417-458 | with every gate open the end of the handler decides reply, row, binding and email |
| GatewayGates.UsedKeyIsAnswered | src/agents_should_survive_failure/tool_gateway.py:309-326 | the answer of a used key from its row |
| GatewayGates.InjectedFailureIsRecorded | src/agents_should_survive_failure/tool_gateway.py:227-267 | an injected failure is a FAILED row under the free key of a registered tool, and nothing otherwise |
| GatewayGates.CommitPublishes | src/agents_should_survive_failure/tool_gateway.py:461-490 | row, binding, email and approval of a transaction become visible together, or not at all |
| GatewayGates.InnerApprovalIsPrivate | src/agents_should_survive_failure/tool_gateway.py:715-725 | an approval inside a transaction is seen there at once and elsewhere only after its commit |
| GatewayHistory.UsedKeyIsFrozen | src/agents_should_survive_failure/tool_gateway.py:309-326 | a used key never runs a handler again and its row never changes |
| GatewayHistory.SucceededIsGrantedAndPinned | src/agents_should_survive_failure/tool_gateway.py:328-345 | what succeeded is in the run's snapshot and equals its binding |
| GatewayHistory.OneVersionPerRun | src/agents_should_survive_failure/tool_gateway.py:461-490 | one tool name never succeeds at two versions in a run, at any distance in time |
| GatewayHistory.SuccessReplays | src/agents_should_survive_failure/tool_gateway.py:309-318 | a committed success answers every later call with the same arguments, whichever registered tool it names |
| GatewayHistory.UngrantedToolReplays | src/agents_should_survive_failure/tool_gateway.py:309-318 | a concrete history: a tool that the run was never granted answers with another tool's result |
| GatewayHistory.ReplayNeverAsksForApproval | src/agents_should_survive_failure/tool_gateway.py:319-324 | the replay branch for a missing approval is unreachable |
| GatewayHistory.DenialOutlivesApproval | src/agents_should_survive_failure/tool_gateway.py:319-321 | a key denied for want of an approval stays denied after it |
| GatewayHistory.DeniedKeyStaysDenied | src/agents_should_survive_failure/tool_gateway.py:319-321 | a concrete history: denied, then approved, then still denied under the key |
| GatewayHistory.EmailGateIsExact | src/agents_should_survive_failure/persistence/seed.py:301 | no history emails for an unapproved run exactly when every email definition requires approval |
| GatewayHistory.OwnApprovalOpensTheGate | src/agents_should_survive_failure/workflows/activities.py:419-468 | inside the transaction that approves the run its email passes the gate; both commit or neither does |
| GatewayRefinement.SettledCallIsInvoked | src/agents_should_survive_failure/workflows/managed_activities.py:136-158 | a gateway call, committed on a result and rolled back otherwise, is the call of the budget model |
| GatewayRefinement.CommittedCallIsCallTool | src/agents_should_survive_failure/workflows/activities.py:199-239 | a gateway call that is committed either way is the tool call of the vendor activities |
| GatewayRefinement.InjectedFaultIsCallTool | src/agents_should_survive_failure/tool_gateway.py:227-267 | recording an injected fault is the faulted tool call of the vendor activities |
| GatewayRefinement.EmailCallIsSendEmail | src/agents_should_survive_failure/workflows/activities.py:453-468 | the approval email of the vendor model is the gateway's email call |
| EventStream.ManagedEventLog.EmitEvent | src/agents_should_survive_failure/workflows/managed_activities.py:97-134 | a valid event gets the next multiple of ten; an invalid one changes nothing |
| EventStream.StreamCursor | src/agents_should_survive_failure/api.py:1308-1325 | the furthest cursor supplied, and refusal exactly of a header that is not a non-negative integer |
| EventStream.EventSource.Poll | src/agents_should_survive_failure/api.py:1341-1363 | one turn yields the batch in order, advances the cursor to its last event, and closes on a terminal or missing run |
| EventStream.StreamIsASegment | src/agents_should_survive_failure/api.py:1328-1371 | under any interleaving of writers, polls, losses and reconnections the client holds one gap-free, duplicate-free, ordered segment of the log |
| EventStream.ReceivedIsASegment | src/agents_should_survive_failure/api.py:1308-1325 | reconnecting resumes exactly behind what the client holds |
| EventStream.DeliveryCompletesIff | src/agents_should_survive_failure/api.py:1341-1363 | a delivery completes the stream exactly when its batch is all that the log has above the cursor |
| EventStream.QuietPoll | src/agents_should_survive_failure/api.py:1341-1365 | without a writer in between: complete exactly when at most 100 events were left, closed exactly when the run is terminal |
| EventStream.ManagedStreamHasNoGap | src/agents_should_survive_failure/workflows/managed_activities.py:97-134 | the client of a managed run receives consecutive multiples of ten |
| EventStream.BetweenPrefix | src/agents_should_survive_failure/persistence/repositories.py:106-118 | a limited batch is the whole segment up to its last event |
| EventStream.LongFinishedRunIsCut | src/agents_should_survive_failure/api.py:1362-1364 | a finished run with more than 100 events is cut after one batch |
| EventStream.LastEventCanBeMissed | src/agents_should_survive_failure/api.py:1341-1363 | a concrete history that closes without the last event |
| StreamRecovery.ReconnectingCatchesUp | src/agents_should_survive_failure/api.py:1308-1371 | from any point of any history one reconnection for each hundred missing events brings the client every event above its start |
| StreamRecovery.PollFollows | src/agents_should_survive_failure/api.py:1308-1365 | a reconnection puts the next events on the wire and nothing else, whatever was lost |
| FaultInjection.FaultInjector.Create | src/agents_should_survive_failure/fault_injection.py:96-154 | which requests arm a plan, and that triggers are conserved |
| FaultInjection.FaultInjector.Consume | src/agents_should_survive_failure/fault_injection.py:156-192 | one trigger and one record per consumer, nothing when none is left; armed = consumed + remaining + discarded |
| FaultInjection.FaultInjector.Clear | src/agents_should_survive_failure/fault_injection.py:194-211 | the rest of the plan is discarded |
| FaultInjection.FaultInjector.Inject | src/agents_should_survive_failure/fault_injection.py:225-237 | what a visit to a fault point raises |
| FaultInjection.FailureFor | src/agents_should_survive_failure/fault_injection.py:72-82 | a delay raises nothing, and only a permanent exception is not retryable |
| FaultInjection.FaultInjector.InjectAll | src/agents_should_survive_failure/workflows/activities.py:488-493 | a stretch of fault points stops at the first that raises |
| FaultInjection.WalkTakesOne | src/agents_should_survive_failure/fault_injection.py:156-192 | visiting distinct points raises exactly when one is armed, and takes exactly one trigger |
| FaultRetries.TwoTriggersAreSurvived | src/agents_should_survive_failure/workflows/vendor_onboarding.py:18 | over three attempts an activity is acknowledged exactly when at most two triggers are armed across its failing points, with the effects of one undisturbed attempt |
| FaultRetries.AttemptSurvives | src/agents_should_survive_failure/workflows/activities.py:80-368 | each failed attempt costs one trigger and leaves rows that a retry completes to the same effects |
| FaultRetries.PermanentFaultFailsReview | src/agents_should_survive_failure/workflows/activities.py:111-148 | a permanent fault armed at the lookup fails the run at once, with the event that says why |
| FaultRetries.ProviderFaultIsAbsorbed | src/agents_should_survive_failure/workflows/activities.py:248-280 | a fault armed at the model provider fails nothing: the assessment commits and the trigger is spent |
| FaultRetries.RedeliveredDecisionIsFound | src/agents_should_survive_failure/workflows/activities.py:400-413 | a committed decision is found again and changes nothing |
| FaultRetries.DecisionSurvivesEveryTrigger | src/agents_should_survive_failure/workflows/activities.py:486-493 | whatever is armed behind it, a decision is recorded once and acknowledged by the second attempt |

## Left out

- HTTP routing, authentication, pagination responses, metrics, tracing and logging: plumbing.
- JSON encoding and hashing: digests and fingerprints are compared as the values that they cover.
- Model, embedding and vector providers, the Docker sandbox and the MCP wire server: foreign calls; a
  tool handler is an arbitrary answer.
- The model explanation inside `assess_risk`: it decides only a flag in an event payload.
- The refund workflow: a smaller copy of the vendor idempotency pattern.
- Allowed agent slugs, the selection of the active agent version and event payloads of delegation.
- `execute`, `request_approval` and the approval decision of a managed run are steps over values rather than
  methods: their reads and their version-checked writes are separate steps that others interleave with.
- The creating half of `delegate` is a step over values too; its charge is `RuntimeState.ManagedRunState.CreateChild`.
- Several runs for one vendor: the vendor model has one run per vendor row.
- `json_schema.py`, API-key parsing, output limits, checkpoint schema versions and agent columns: easy members.
- Wall-clock timeouts and delays: a timeout is an attempt that ends, a delay raises nothing.
- The audit row of an operator's cancellation: only the runs, their summaries and the signal list are modelled.
- ScenarioDrivers.DriveCase: does not wait for the run's final status in the database and does not send the tool
  attempts of a case, neither of which moves the decision; a refused probe leaves no trace, so the contract does not
  say that it was sent.
- RunRequests.RunRequestTables.CreateOrGetRun: does not validate depth and root, and leaves the delegation, budget
  and audit rows to the delegation and budget models.
- RuntimeState.ManagedRunState.CallTool: leaves out the manifest's declaration and capability check before the
  transaction.
- RuntimeState.ManagedRunState.CallModel: leaves out the capability and prompt-size checks before the transaction.
- RuntimeState.ManagedRunState.SaveCheckpoint: leaves out the checks of name, schema version, agent and size.
- RuntimeState.ManagedRunState.CreateArtifact: leaves out the checks of name, content type, size and parent artifact.
- Delegation.CheckDelegation: leaves out the allowed slugs and the choice of the active agent version.
- CancellationSweep.RunTable.CancelOnboarding: leaves out the audit row and the answer for an unknown run.
- VendorActivities.VendorDatabase.CancelReview: does not model the completion time, because no clause depends on it.
- EventStream.EventSource.Poll: the keepalive lines and the JSON framing of events are not modelled.
