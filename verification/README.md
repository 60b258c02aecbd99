# Verified model of the LLM inference control plane

This project models the parts of the operator that decide what runs, and proves what
those decisions guarantee over whole runs. It is pure Dafny; `dafny verify dfyconfig.toml`
checks all of it.

The pieces, bottom up:

- `Weights.dfy`, `Verdicts.dfy`: the replica split and the weight ladder; round verdicts and
  the three budgets, with the budgets restated as functions of an attempt's history.
- `CanaryMachine.dfy`: the rollout state machine, `Observe`, `DueForAnalysis` and `Next`, as
  pure functions with the branches of the source.
- `CanaryRuns.dfy`: runs of the machine. A run threads the position from pass to pass
  through `Handover`, which also allows everything the controller may do to it in between:
  restoring it from status, rewriting the rejected revision or the metric handshake, or
  dropping the rollout. Everything proved of runs therefore holds around the closed loop.
  A run may also be edited: each pass then works by its own plan.
- `Readiness.dfy`: what counts as ready and as measured, in the Deployment's own counters.
- `AttemptBudgets.dfy`, `AttemptTiming.dfy`, `AttemptEvidence.dfy`, `FastestPromotion.dfy`,
  `AttemptLength.dfy`, `CanaryGuarantees.dfy`: what holds on every run, and of every single
  decision.
- `Rollout.dfy`, `ClosedLoop.dfy`, `MetricHandshake.dfy`: one reconcile pass (plan, hold,
  stall guard, status, persist, restore) and the loop it forms with its own status.
- `StatusReport.dfy`: what status says of a pass, in the workloads' own counters.
- `PlanEdits.dfy`: what survives when the plan changes in mid-rollout.
- `RejectedTargets.dfy`, `Promotions.dfy`: what a rejection and a promotion are worth in that
  loop, with the exact conditions under which the code loses either.
- `History.dfy`, `RollbackTarget.dfy`: recorded revisions, pruning, and why the rollback
  target can always be reconstructed.
- `Readings.dfy`, `Analysis.dfy`: from metric answers to a round's verdict.
- `Provenance.dfy`: from metric samples to the rollback target, end to end.
- `Autoscale.dfy`, `AutoscaleRuns.dfy`, `Sizing.dfy`: the autoscaler, its stabilization history,
  and what a recommendation means in the configuration's own terms.
- `EventStream.dfy`, `StreamEncoding.dfy`, `StandardReading.dfy`, `StreamObserver.dfy`: the
  streamed response read in one go, the writer's encoding that this reading undoes, the
  standard's own reading, and the incremental observer as a class that must agree with the
  one-shot reading for every cutting into reads.

Modelling choices. Times are whole seconds, the resolution status keeps, and `Never` is the
zero time. Revision hashes, Deployment UIDs and object names are opaque identities; `Unset`
and `NoUid` are the empty strings. Metric values are reals plus NaN and the infinities.
Verdicts and phases have exactly the constants the source defines. The cluster, the metric
provider, the clock and the operator's annotations are inputs of a pass, with no assumption
on them except a clock that does not go back. Durations, limits and ladders are what
`canaryPlan` resolves (`Resolved`): positive, and never empty (internal/controller/canary.go:448-470,
api/v1alpha1/analysis_types.go:608-621). It also always sets a deadline of at least a second
(internal/controller/children.go:285-295); the state machine itself takes zero for none, so
`Resolved` does not ask for one, and `ControllerPlansAreBoundedIff` is what the bound on attempts
comes to for the controller's plans. Some proofs `hide` a definition they do not need;
that only takes knowledge away from the verifier.

Where the code and its comments disagree, the model follows the code:

- The comment on `Next` calls repeating a pass a no-op (internal/canary/state.go:374-377).
  `OnePassIsNotEnough` is an input where it is not; `OnePassSettlesIff` proves that one pass is
  enough exactly when it neither starts nor rolls back, `CalmPassesSettle` that two always are.
- The comment on `paused` says nothing but an operator moves a pause (state.go:622-627). A
  readiness change does, too (state.go:272-278): `PauseCanEndUnattended` is an input, and
  `PauseEndsIff` the exact rule. Past the deadline such a change even rejects the release
  (`LateReadinessLossRejects`, with `ApprovalCanComeTooLate` as an input).
- A rollback is said to stick until the spec changes (internal/controller/canary.go:145-146).
  With a candidate in flight it need not: a mid-rollout target change retries a rejected
  revision (`RejectionDoesNotStickInFlight`), and an abort at that moment erases its rejection
  (`AbortCanEraseARejection`). `RejectedIsRetriedIff` and `RejectionLastsIff` say exactly when;
  what holds regardless is that the primary never leaves the last good revision.
- The comment on `holdRejectedRevision` takes a canary's rejection to belong to an earlier
  revision (canary.go:152-153). It can be the canary's own: such a retry, once it has passed
  every check, is withheld for good (`RetryCanWinAndBeWithheld`, `WithheldForGood`), and
  `PromotionIsBankedIff` has the exact condition for a promotion to be banked.
- The comment on `promoting` says that the machine stays there until the primary has caught up
  (state.go:588-589). A spec found unusable for a moment rewrites the status phase
  (modeldeployment_controller.go:681-709), and the promoted revision starts its ladder again
  (`PromotedCanBeCanariedAgain`); `PromotionSettlesIff` has the exact condition.

- The comment on `maxHistory` calls 32 entries well above what the longest sensible window needs
  at the default poll interval (internal/autoscale/recommend.go:61-63). But every reconcile adds
  one, not every poll interval (internal/controller/autoscale.go:82-150). Under every configuration
  that can move the fleet at all, 33 in one window break the window's promise (`CapCanForget`);
  `WindowIsRespectedIff` proves that it is kept exactly up to 32.
- The comment on the end-of-stream branch says that the format dispatches a pending event when the
  connection closes (cmd/shim/sse.go:164-166). Section 9.2 of the WHATWG HTML standard discards it.
  `PendingEventIsExtra` is such a stream; `ReadingsAgree` has those on which the readings agree but
  for that event.

## Model

| member | source | states |
|---|---|---|
| Weights.Split | internal/canary/weights.go:60-85 | the two counts add up to the total, a positive weight gets a pod once there are two, and the primary keeps one below weight 100 |
| Weights.SplitQuantization | internal/canary/weights.go:67-84 | the canary's count is within one pod of the exact share, for every total and weight |
| Weights.SplitMonotone | internal/canary/weights.go:60-85 | more total or more weight never means fewer canary pods |
| Weights.RealizedIsNearest | internal/canary/weights.go:94-105 | the realized weight is the canary's share to the nearest percent |
| Weights.LargeFleetIsNotQuantized | internal/canary/weights.go:94-114 | from 65 replicas on, every realized weight is within one point of the request |
| Weights.NeverQuantizedIff | internal/canary/weights.go:60-114 | a fleet realizes every weight within one point iff it has 50, 60, or at least 65 replicas |
| Weights.ClimbingClimbs | api/v1alpha1/rollout_types.go:262-278 | an explicit ladder keeps only valid entries and climbs strictly |
| Weights.RunningMaximumSurvives | api/v1alpha1/rollout_types.go:262-278 | every strict running maximum of an explicit ladder is kept |
| Weights.StepLadder | api/v1alpha1/rollout_types.go:257-298 | the ladder is non-empty, strictly increasing and within 1..100; it is the kept explicit entries, else equal steps |
| Weights.UniformLadder | api/v1alpha1/rollout_types.go:280-297 | the default ladder's loop computes equal steps that end at the maximum weight |
| Weights.UniformAt | api/v1alpha1/rollout_types.go:289-297 | rung i is the i-th multiple of the step, except the last, which is the maximum weight however the step divides it |
| Verdicts.Worst | internal/canary/verdict.go:59-96 | the round verdict is one of the checks' and outranks all of them; nothing checked is an error |
| Verdicts.WorstDecides | internal/canary/verdict.go:59-96 | a round passes iff something was checked and all passed, fails iff something failed and nothing errored, errs iff something errored or nothing was checked |
| Verdicts.Aggregate | internal/canary/verdict.go:59-75 | the loop computes that verdict |
| Verdicts.TallyRound | internal/canary/verdict.go:125-145 | folding a verdict into the counters is recounting the history with that round appended |
| Verdicts.TallyReset | internal/canary/state.go:272-279 | a readiness reset clears the error and inconclusive runs and keeps the failures |
| CanaryMachine.ObserveIdempotent | internal/canary/state.go:248-284 | observing twice is observing once |
| CanaryMachine.UnconsumedRoundIsInvisible | internal/canary/state.go:661-766 | a supplied round that is not due, or whose readiness was reset, influences nothing |
| CanaryMachine.ActionFitsPhase | internal/canary/state.go:378-421 | the phase each action leaves behind, for every input |
| CanaryMachine.SplitConserved | internal/canary/state.go:378-421 | primary plus canary is the total in every decision |
| CanaryMachine.SamePositionSameDecision | internal/canary/state.go:356-421 | positions that differ only as Waiting and Progressing get identical decisions and schedules |
| CanaryRuns.SoundRun | internal/canary/state.go:248-284 | the invariant of every reachable position: rung in range, clocks ordered, budgets unspent |
| CanaryRuns.ContinuedAttempt | internal/canary/state.go:661-821 | a pass that continues an attempt keeps its start, revision and fallback, and spends exactly the budgets of its own events |
| Readiness.ClockRunsIff | internal/canary/state.go:248-284 | the evidence clock runs iff every planned pod of the candidate's current generation is updated, ready and available and there are no others; from before iff rung, weight, capacity and Deployment are as they were |
| Readiness.SightIsBound | internal/canary/state.go:252-279 | a pass binds the clock to what it sees, and gives up round, runs and pause iff that is something else or does not serve |
| Readiness.HandshakeIsBound | internal/canary/state.go:260-266 | the metric handshake survives a pass iff it was made for the Deployment that the pass sees |
| Readiness.ConsumedIff | internal/canary/state.go:356-370 | a supplied round is consumed iff the candidate has served for the initial delay and the window and the interval since the last round is over |
| Readiness.FailureCountsIff | internal/canary/state.go:725-761 | so a failing round costs one of the failure budget exactly then |
| AttemptBudgets.BudgetsFollowHistory | internal/canary/verdict.go:125-145 | on every run, whatever edits its plan sees, the counters are exactly the tally of the attempt's rounds and resets |
| AttemptBudgets.FailureThresholdIsExact | internal/canary/state.go:753-761 | a failed round holds until the FailureThreshold-th failure of the attempt and then rolls back, and no other round rolls back for that reason |
| AttemptBudgets.ErrorLimitIsExact | internal/canary/state.go:728-742 | AnalysisError rolls back exactly when the unbroken run of errors reaches the limit |
| AttemptBudgets.InconclusiveLimitIsExact | internal/canary/state.go:744-751 | an unclear round is waited out until the limit-th since the last pass, failure or reset, errors between notwithstanding; then exactly the policy decides, and nothing else rolls back for it |
| AttemptBudgets.OutageEndsAtTheLimit | internal/canary/state.go:728-742 | with only errors and resets behind it, the k-th round since the last reset ends the attempt iff k is the limit |
| AttemptBudgets.RollsBackIff | internal/canary/state.go:661-766 | a pass rolls back, and for that reason, iff it is aborted, too late, or out of its failure, error or (if the policy says so) inconclusive budget |
| AttemptBudgets.DeadlineRollsBackIff | internal/canary/state.go:700-705 | DeadlineExceeded rolls back iff a started candidate with pods is at or past its deadline and either loses its readiness or has not completed its first window on the rung |
| AttemptBudgets.RollbackCauses | internal/canary/state.go:661-766 | a rollback has one of five causes and its reason names the one that held |
| AttemptBudgets.ConsumedRoundIsProgress | internal/canary/state.go:725-821 | a round that does not end the attempt decreases (rungs and failures left, inconclusives left, errors left) lexicographically |
| AttemptBudgets.AttemptsEnd | internal/canary/state.go:725-821 | without waiting out unclear rounds, an attempt that keeps its readiness stays undecided for fewer rounds than an explicit bound, with or without a deadline |
| AttemptLength.RoundsTakeTime | internal/canary/state.go:356-370 | an attempt consumes no more rounds than seconds have passed since it started |
| AttemptLength.DeadlineEndsAttempts | internal/canary/state.go:700-705 | with a deadline, an attempt stays undecided for fewer rounds than an explicit bound, however its readiness comes and goes |
| AttemptLength.WaitPolicyCanHoldForever | internal/canary/state.go:845-863 | under the Wait policy there is, for every n, a run that consumes n rounds without losing readiness and is still undecided |
| AttemptLength.FlappingCanGoOnForever | internal/canary/state.go:272-279 | without a deadline and with a limit above one or an approval to wait for, so is one whose readiness flaps |
| AttemptLength.AttemptsAreBoundedIff | internal/canary/state.go:661-863 | a plan bounds the rounds of its attempts iff it does not wait unclear rounds out and has a deadline or lets every round decide |
| AttemptLength.ControllerPlansAreBoundedIff | internal/controller/children.go:285-295 | so the controller's plans, which all have a deadline, bound their attempts iff unclear rounds are not waited out |
| AttemptTiming.EvidenceIsFresh | internal/canary/state.go:248-284 | whenever a round is consumed, every pass for at least the initial delay plus window of the plan then in force saw every planned pod of the candidate serving, at the same rung and capacity and from the same Deployment, whatever edits the plan saw |
| AttemptTiming.WakeUpIsExact | internal/canary/state.go:356-370 | with a running clock and no round due, the requested wake-up is the first instant a round is due: the end of the first window, or an interval after the last round |
| AttemptTiming.UnmeasuredCandidateMeetsDeadline | internal/canary/state.go:700-716 | no started candidate that is unready, or still warming up, is waited for past its deadline |
| AttemptTiming.PromotionTakesEveryWindow | internal/canary/state.go:712-716 | an n-rung ladder promotes no earlier than n warm-ups and windows after it started |
| AttemptTiming.HopelessLadderNeverPromotes | internal/canary/state.go:700-705 | if all rungs but the last take the whole deadline, no run ever promotes |
| FastestPromotion.FastestPromotionRun | internal/canary/state.go:769-821 | otherwise there is a run that promotes exactly n warm-ups and windows after its start |
| FastestPromotion.PromotionIsPossibleIff | internal/canary/state.go:700-705 | promotion is possible at all iff the deadline leaves room for every rung but the last |
| AttemptEvidence.PromotionIsEarned | internal/canary/state.go:769-821 | a promotion rests on a passed round at every rung, in order, of one uninterrupted attempt at that revision, and on an approval if required |
| AttemptEvidence.CanaryNeverShrinks | internal/canary/state.go:769-821 | at a fixed total and along an increasing ladder the canary never loses a replica within an attempt |
| CanaryGuarantees.OnlyRollbackRejects | internal/canary/state.go:867-882 | the rejected revision changes only by a rollback, which records the candidate |
| CanaryGuarantees.InFlightHasPods | internal/canary/state.go:523-541 | a started candidate always has pods; without capacity there is no clock, rung or budget |
| CanaryGuarantees.WeightsAreHonest | internal/canary/state.go:286-326 | the desired weight is the rung's entry of the ladder, the counts are its split and the realized weight is theirs; out of flight the primary has every replica |
| CanaryGuarantees.ExposureIsAsRequested | internal/canary/weights.go:60-114 | with 65 replicas or more the share a candidate gets is within a point of what its rung asks for |
| CanaryGuarantees.TimerIsSet | internal/canary/state.go:313-318 | a timer is requested exactly for Start, Wait, Advance and Promote |
| CanaryGuarantees.TimerIsExact | internal/canary/state.go:906-918 | the requested delay in every case: the end of the window, an interval after the last round, a second if that is over, an interval otherwise, or none |
| CanaryGuarantees.ReasonIsExact | internal/canary/state.go:431-540 | the reason of every decision that is not a rollback |
| CanaryGuarantees.WaitingUntilReady | internal/canary/state.go:706-716 | a candidate that is waited for is Waiting until its clock runs and Progressing from then on |
| CanaryGuarantees.EmptyLadder | internal/canary/state.go:431-520 | without a ladder a new target is promoted at once, and a candidate in flight is held |
| CanaryGuarantees.AbortWins | internal/canary/state.go:384-390 | a pass reports an abort iff it was aborted with a canary active, and then rolls it back whatever else arrives |
| CanaryGuarantees.PauseEndsIff | internal/canary/state.go:622-658 | a pause lasts iff target and readiness are unchanged and no operator acts, promotes iff approved under the same terms, and rolls back iff aborted or readiness is lost past the deadline |
| CanaryGuarantees.PauseEndsByApproval | internal/canary/state.go:628-658 | with readiness and target unchanged and no abort, a pause moves only by approval, and nothing but the phase moves |
| CanaryGuarantees.PauseCanEndUnattended | internal/canary/state.go:272-278 | an input whose unready pod takes a paused rollout back to measuring |
| CanaryGuarantees.LateReadinessLossRejects | internal/canary/state.go:700-705 | losing readiness at or past the deadline rejects the attempt, on any rung, paused included |
| CanaryGuarantees.ApprovalCanComeTooLate | internal/canary/state.go:700-705 | an input where that rejects a release in the very pass that approves it |
| CanaryGuarantees.CalmPassesSettle | internal/canary/state.go:372-378 | under unchanged observations a third pass never changes the position |
| CanaryGuarantees.OnePassSettlesIff | internal/canary/state.go:372-378 | a second pass changes nothing iff the first neither started nor rolled back |
| CanaryGuarantees.OnePassIsNotEnough | internal/canary/state.go:372-378 | an input whose second pass still moves the position |
| Rollout.PlanConservesReplicas | internal/controller/canary.go:98-365 | every plan, under either strategy, runs exactly the desired replicas |
| ClosedLoop.PlanFollowsRung | internal/controller/canary.go:252-365 | a plan gives a started candidate the canary count of its rung's split and the primary the rest; every other plan gives the primary everything |
| ClosedLoop.ExposureIsPlanned | internal/controller/canary.go:320-365 | on every pass of every loop the share planned for a started candidate is off by less than a pod |
| Rollout.SumVariants | internal/controller/status.go:130-137 | the loop sums the counters of the variants that exist |
| Rollout.PersistRestores | internal/controller/canary.go:500-602 | persisting a decision and restoring it gives the same position |
| Rollout.RestartsAreInvisible | internal/controller/canary.go:500-602 | restarts between any passes of a run, in any pattern, change none of its decisions |
| ClosedLoop.RejectionSticks | internal/controller/canary.go:147-249 | with no candidate in flight, a rejected target gets neither the primary nor a canary on every later pass, under either strategy, and is never banked |
| RejectedTargets.RejectedIsNotServed | internal/controller/canary.go:147-182 | from every phase, in flight included, a pass at a rejected target plans the last good revision for the primary and does not bank the target |
| RejectedTargets.RejectionLastsIff | internal/canary/state.go:384-390 | the rejection stays on record iff the pass does not abort a candidate other than the target |
| RejectedTargets.RejectedIsRetriedIff | internal/canary/state.go:398-404 | a rejected target is canaried again iff it arrives with another candidate in flight and without an abort |
| RejectedTargets.RejectedIsNeverServed | internal/controller/canary.go:147-249 | over whole loops, in flight or not, the primary stays on the last good revision until another candidate is aborted |
| RejectedTargets.RejectionStaysIff | internal/controller/canary.go:147-189 | over whole loops the rejection is on record throughout iff no pass aborted another candidate |
| RejectedTargets.RejectionDoesNotStickInFlight | internal/canary/state.go:398-404 | an input where a mid-rollout target change retries a rejected revision |
| RejectedTargets.AbortCanEraseARejection | internal/canary/state.go:384-390 | an input where an abort at that moment erases the rejection |
| RejectedTargets.RetriedWinnerIsWithheld | internal/controller/canary.go:147-182 | a retry that is promoted keeps the last good revision on the primary and is rejected again |
| RejectedTargets.WithheldForGood | internal/controller/canary.go:147-182 | and is held back on every later pass at that target |
| RejectedTargets.RetryCanWinAndBeWithheld | internal/controller/canary.go:147-182 | a loop of three passes in which a retry starts, becomes ready, passes its ladder and is withheld |
| ClosedLoop.RollbackRejects | internal/controller/canary.go:147-182 | a rolled-back target is rejected on that very pass, without losing the fallback |
| ClosedLoop.StallRevertRejects | internal/controller/canary.go:214-249 | so is one whose primary rollout stalled: automatic rollback on, a stalled primary, something else known good, no earlier rejection |
| ClosedLoop.StallRevertsIff | internal/controller/canary.go:214-249 | nothing else is reverted as stalled |
| ClosedLoop.RollbackSticks | internal/controller/canary.go:117-146 | from then on the last good revision runs for as long as the spec names the target |
| ClosedLoop.PlannedIsMachineInput | internal/controller/canary.go:252-318 | a planned pass is one state machine step on the restored position with the round it ran |
| ClosedLoop.ProjectionIsEditedRun | internal/controller/canary.go:252-365 | every closed loop is a run of the state machine by the plan of each pass, so all run properties hold around it |
| ClosedLoop.ProjectionIsRun | internal/controller/canary.go:252-365 | a closed loop of one plan is a run of that plan |
| ClosedLoop.BankedByPromotion | internal/controller/status.go:155-185 | a pass changes the last good revision only by promoting it |
| ClosedLoop.BankedIsServing | internal/controller/status.go:155-185 | for a newly banked revision the updated, available and total pods of the two workloads each add up to the desired replicas, under an observed, unstalled primary |
| ClosedLoop.InFlightNeverBanks | internal/controller/status.go:176-185 | nothing is banked while a candidate is in flight |
| StatusReport.PhaseIsExact | internal/controller/status.go:624-663 | the phase follows the state machine while it acts, and otherwise exactly the counters of the two workloads |
| StatusReport.LastGoodIsExact | internal/controller/status.go:155-185 | what the primary runs is banked iff that rollout is through and serves, nothing is stalled and no candidate is in flight |
| StatusReport.HandshakeIsExact | internal/controller/canary.go:290-318 | a round is run iff it is due and the candidate's metrics are proven its own; otherwise it is tried again within an interval |
| StatusReport.RollbackGoesBack | internal/controller/canary.go:331-362 | a rollback goes to the revision the candidate was measured against, else to the last good one |
| StatusReport.NothingToRemember | internal/controller/canary.go:560-602 | status keeps nothing of a canary iff none is in flight and none was rejected |
| ClosedLoop.NewLastGoodIsEarned | internal/controller/status.go:183-185 | in every closed loop a newly banked revision had a passing round at every rung of one attempt, and an approval if required |
| ClosedLoop.NewLastGoodTookItsTime | internal/controller/status.go:183-185 | and at least one warm-up and window per rung since that attempt started |
| PlanEdits.PromotionFollowsLastRung | internal/canary/state.go:769-821 | however the plan is edited, a promotion follows a passing round on the last rung of the plan then in force, within one attempt, and an approval if that plan required one |
| PlanEdits.NewLastGoodPassedLastRung | internal/controller/status.go:183-185 | the same around the loop, for whatever is banked anew |
| PlanEdits.EditCanPromoteEarly | api/v1alpha1/rollout_types.go:250-298 | for every ladder there is a run that an edit in mid-rollout lets promote after its first window |
| Provenance.PassIsConvincing | internal/analysis/analyzer.go:80-200 | a round passes iff the traffic gate is open, something is checked, and every check has its samples and one finite number in range |
| Provenance.LastGoodIsDocumented | internal/controller/status.go:155-185 | end to end: a newly banked revision serves on every desired replica and passed, at every rung of one attempt, a round with convincing measurements, a ready stretch of a warm-up and a window, and a metric-scope check of the same Deployment; and it was approved if required |
| Provenance.LastGoodIsDocumentedUnderEdits | internal/controller/status.go:155-185 | with edits, the same for the last rung of the plan then in force |
| Promotions.PromotionSettlesIff | internal/canary/state.go:590-620 | over whole loops a promotion settles iff no pass forgets it, each pass then repeating it or doing nothing; under the canary strategy a canary runs again iff one does |
| Promotions.SettlingStep | internal/controller/modeldeployment_controller.go:681-709 | the promoted revision is canaried again iff the spec was found unusable before it was banked, unless it is rejected or nothing else is known good |
| Promotions.PromotedCanBeCanariedAgain | internal/controller/modeldeployment_controller.go:681-709 | an input where it is |
| Promotions.BankedStaysBanked | internal/canary/state.go:431-449 | once banked it stays banked, and its promotion cannot be forgotten |
| Promotions.PromotionIsBankedIff | internal/controller/canary.go:147-249 | a promoted revision is withheld iff something else is known good and it is on record as rejected or its rollout stalled; it is banked iff it is not withheld and serves on every desired replica |
| MetricHandshake.RoundsRestOnThisDeployment | internal/controller/canary.go:290-311 | every round run rests on a metric-scope check made while the same Deployment incarnation was seen on every pass since |
| History.Recorder.List | internal/revision/history.go:213-237 | all entries, oldest first in the total order |
| History.Recorder.NextRevisionNumber | internal/revision/history.go:346-363 | one more than the largest number, or one |
| History.Recorder.Record | internal/revision/history.go:79-178 | exactly when each refusal, an existing entry and a new one result; a new entry gets the next number, and nothing else changes the store |
| History.Recorder.Prune | internal/revision/history.go:282-336 | exactly min(n, max(limit, pinned)) entries survive, all pinned ones among them, and every deleted one is older than every unpinned survivor |
| History.PrunedIsDetermined | internal/revision/history.go:282-336 | that description determines the result |
| History.ListedByNumber | internal/revision/history.go:213-237 | the listing is by sequence number, then name |
| History.PrunedByNumber | internal/revision/history.go:315-333 | what is deleted comes before every unpinned survivor in that order |
| RollbackTarget.TenAreKept | internal/controller/modeldeployment_controller.go:496-529 | with fewer than ten recorded nothing is lost, and more than ten stay only if all are in use |
| RollbackTarget.RecordRevision | internal/controller/modeldeployment_controller.go:496-529 | a pass records its target and prunes around everything the status names; it fails, changing nothing, iff the payload is not that revision's or differs from the one recorded |
| RollbackTarget.NextStatusIsFamiliar | internal/controller/status.go:86-191 | a new status names only what the old one named, and the target |
| RollbackTarget.AlwaysReconstructable | internal/controller/modeldeployment_controller.go:376-529 | along every loop, with any number of failed reconciles at any targets in between, each named revision stays recorded, so both lookups of every plan succeed |
| Analysis.EvidenceIsOneNumber | internal/analysis/evaluate.go:73-135 | a check passes or fails only on exactly one finite number, by the inclusive range; it errs iff the query failed or returned several series |
| Analysis.RunOne | internal/analysis/analyzer.go:152-200 | the loop over variants computes the check, sample floor first |
| Analysis.CheckDecidesIff | internal/analysis/analyzer.go:152-200 | a check passes (fails) iff its queries render, a token rate has its floor of usage samples from every variant compared, and its answer is one finite number in (out of) range |
| Analysis.Run | internal/analysis/analyzer.go:80-105 | the loop computes the checks, traffic gate first |
| Analysis.NoTrafficNoVerdict | internal/analysis/analyzer.go:108-149 | without one finite request rate at or above a positive floor the round can neither pass nor fail, and a failed query is an error |
| Analysis.RoundPassesIff | internal/analysis/analyzer.go:80-105 | a round passes iff the gate is open, something is checked and every check passes |
| Analysis.GateIsExact | internal/analysis/analyzer.go:108-149 | the traffic gate opens iff there is no floor or one finite rate reaches it; it reports an error iff the rate could not be asked for |
| Analysis.CheckErrsIff | internal/analysis/analyzer.go:152-200 | a check errs iff something it needs could not be asked or came back ambiguous, in the order it asks; thin data never is an error |
| Analysis.RoundIsExact | internal/analysis/analyzer.go:80-149 | exactly when a round errs, fails or is inconclusive |
| Analysis.NoVerdictNoProgress | internal/canary/state.go:728-751 | such a round advances nothing and leaves the failure budget alone |
| Analysis.OutageRollsBackAtTheLimit | internal/canary/state.go:728-742 | with an unreachable provider analysis rolls back only with AnalysisError, exactly at the ConsecutiveErrorLimit-th round since readiness, and nothing ever climbs |
| Autoscale.MinOver | internal/autoscale/recommend.go:355-369 | the loop computes the smallest recommendation since the cutoff |
| Autoscale.MaxOver | internal/autoscale/recommend.go:372-386 | the loop computes the largest one |
| Autoscale.Prune | internal/autoscale/recommend.go:394-413 | the loop keeps the newest 32 entries of the window |
| Autoscale.ReadyCountCancels | internal/autoscale/recommend.go:236-271 | the size recommended does not depend on the ready count |
| Sizing.BoundedIsNearest | internal/autoscale/recommend.go:435-444 | a count is bounded to the nearest allowed one: at least one, the minimum winning over a lower maximum |
| Sizing.GoalIsSmallestEnough | internal/autoscale/recommend.go:255-271 | the size asked for is the smallest allowed fleet with at most the target per pod, or the largest allowed |
| Sizing.ToleranceIsAroundTarget | internal/autoscale/recommend.go:236-253 | the tolerance band is the fraction around the target per ready pod |
| Sizing.PollMeans | internal/autoscale/recommend.go:193-299 | every poll stays within bounds; without a measurement or within the tolerance the count stays, otherwise the recommendation is what the reading asks for |
| Sizing.ReportIsExact | internal/autoscale/recommend.go:276-281 | Changed and Direction, from the count each is measured against |
| Sizing.DecisionIsTight | internal/autoscale/recommend.go:329-352 | a recommendation is followed at once without a window, and otherwise to a size recommended within it |
| Sizing.ConstantDemandIsMet | internal/autoscale/recommend.go:329-352 | constant demand ends at the smallest allowed fleet that serves it |
| AutoscaleRuns.HistoryIsRecentLog | internal/autoscale/recommend.go:394-413 | pruned poll by poll, the history is exactly the newest 32 entries of the full log's window |
| AutoscaleRuns.StabilizationRefinesLog | internal/autoscale/recommend.go:329-413 | with at most 32 entries in the window, stabilizing over the history equals stabilizing over the log |
| AutoscaleRuns.CapCanForget | internal/autoscale/recommend.go:409-411 | for every configuration that can move, a run of 33 polls in one window whose last decision passes the first recommendation, with ordinary demands if the tolerance is below one |
| AutoscaleRuns.WindowIsRespectedIff | internal/autoscale/recommend.go:329-413 | the window's promise is kept on all runs with at most n entries in a window iff n is at most 32 or the fleet cannot move |
| AutoscaleRuns.NewestAreRespected | internal/autoscale/recommend.go:329-413 | on every run no decision passes any of the 32 newest recommendations in its window |
| AutoscaleRuns.WindowIsRespected | internal/autoscale/recommend.go:329-352 | so with at most 32 in the window, a scale-down never goes below any recommendation in it, a scale-up never above one |
| AutoscaleRuns.DecisionIsBetween | internal/autoscale/recommend.go:193-299 | every decision lies between the current count and the raw recommendation, within bounds |
| AutoscaleRuns.NoMeasurementNoChange | internal/autoscale/recommend.go:197-230 | without a measurement only the bounds can move the count, and nothing is remembered |
| AutoscaleRuns.ChangedWithoutDirection | internal/autoscale/recommend.go:276-281 | Changed and Direction disagree exactly when the bounds alone moved the count |
| AutoscaleRuns.ConstantDemandConverges | internal/autoscale/recommend.go:193-299 | under constant demand the count moves monotonically toward the demanded size, never past it and never back |
| AutoscaleRuns.ConstantDemandArrives | internal/autoscale/recommend.go:329-352 | and reaches it once every poll in the window measured outside the tolerance |
| EventStream.KeptContentIsCapped | cmd/shim/sse.go:253-270 | an event keeps its data only if no line of it was over the cap, and then within the cap |
| EventStream.StreamIsAccounted | cmd/shim/sse.go:272-303 | for every stream exactly tokens-1 gaps are reported, and time to first token plus the gaps is the time to the last token |
| StreamEncoding.EncodedStreamIsUnderstood | cmd/shim/sse.go:239-303 | round trip: for every sequence of encodable events, with LF or CRLF endings, with or without the optional space, and any other fields between, the reading of the encoded bytes is what the events' own data add up to |
| StreamEncoding.OpenEventIsUnderstood | cmd/shim/sse.go:162-178 | an event still open at the end of the stream counts like any other |
| StreamEncoding.LastNewlineIsOptional | cmd/shim/sse.go:162-178 | every stream reads the same with and without a final newline |
| StreamEncoding.CutEventIsUnderstood | cmd/shim/sse.go:162-178 | an event cut off before its last newline counts like any other |
| StreamEncoding.LongLineDropsItsEvent | cmd/shim/sse.go:162-178 | a line over the cap, even the unterminated last one, takes its event with it |
| StreamEncoding.TrimIsExact | cmd/shim/sse.go:272-276 | trimming takes all white space off both ends and nothing else |
| StreamEncoding.PayloadComesBack | cmd/shim/sse.go:253-270 | the joined data is, once trimmed, the values with newlines between, and the caps lose no event that fits |
| StreamEncoding.WhatIsCounted | cmd/shim/sse.go:272-303 | one token per event that carries one, done iff some event says so, and the usage last reported |
| StandardReading.LinesAgree | cmd/shim/sse.go:190-243 | where carriage returns only precede newlines, the trimmed lines are the standard's |
| StandardReading.ReadingsAgree | cmd/shim/sse.go:157-270 | without a byte order mark, lone carriage returns, bare data fields or anything over the cap, the telemetry is that of the standard's reading and of the event pending at the end |
| StandardReading.PendingEventIsExtra | cmd/shim/sse.go:162-178 | a stream without its last blank line whose end marker the shim sees and the standard does not |
| StreamObserver.Observer.Read | cmd/shim/sse.go:157-184 | bytes pass through unchanged, both buffers stay within the cap, and at the end the telemetry is that of the one-shot reading |
| StreamObserver.Observer.Scan | cmd/shim/sse.go:190-223 | the loop leaves the observer where the stream so far puts it |
| StreamObserver.Observer.AppendPartial | cmd/shim/sse.go:226-236 | the unfinished line is buffered, or given up once over the cap |
| StreamObserver.Observer.HandleLine | cmd/shim/sse.go:239-270 | one more line is framed into its event |
| StreamObserver.Observer.HandleEvent | cmd/shim/sse.go:272-303 | one event is added to the telemetry |
| StreamObserver.ObserveAll | cmd/shim/sse.go:157-303 | for every stream and every cutting into reads the telemetry is the one-shot reading's, and accounted for |

## Left out

- The Kubernetes client, Server-Side Apply, watches, events, gauges and annotations being
  cleared: I/O. Of a pass that fails before its status is written, only what it does to the
  recorded revisions is modelled.
- Conditions and messages on status, the CanaryHealthy and TrafficRoutingReady texts among
  them: they feed no decision.
- JSON, hashing and naming: identities are opaque, and a decoded stream frame is an arbitrary
  function of the payload. Trimming a payload is modelled for ASCII white space only.
- Legacy-to-v2 migration of revisions and the telemetry migration hold: the loop is that of
  resources recorded by this version.
- Query rendering, dashboards and Prometheus rules: string templates; whether a query renders
  is a flag of the metric.
- Floating-point rounding in the autoscaler and in thresholds: reals are used instead.
- 32-bit overflow of the budgets, which would take two thousand million rounds, and clock
  readings finer than a second.
- The default branch of Next for phases this version does not write, and verdicts outside the
  four constants.
- A controller without a configured provider: its rounds are those of an unreachable one.
- The non-streaming usage observer, the HTTP proxy, engine profiles, pod rendering, bucket
  snapping, the load generator and the fake engine: field copying, library behaviour or small
  members that would only add easy claims.
