/** What a rejection is worth while a candidate may be in flight
    (internal/controller/canary.go:147-189, internal/canary/state.go:384-404). A rejected
    revision never reaches the primary while its rejection lasts; but a target that
    changes in mid-rollout retries it, an abort can erase its rejection, and a retry that
    passes every check is withheld. */
module RejectedTargets {
  import opened Verdicts
  import opened Weights
  import opened CanaryMachine
  import opened CanaryRuns
  import opened Rollout
  import opened CanaryGuarantees
  import opened ClosedLoop

  /** What a canary pass needs: a resolved plan, and a candidate whose fallback is the
      last good revision. */
  predicate Workable(s: Status, pass: Pass)
  {
    pass.canaryStrategy ==> Resolved(pass.plan) && FallbackIsLastGood(s)
  }

  /** The position a pass plans from. */
  function Position(s: Status, pass: Pass): State { Restore(Found(s, pass)) }

  predicate CandidateInFlight(s: Status, pass: Pass)
  {
    pass.canaryStrategy && IsActive(Position(s, pass).phase)
  }

  /** The pass aborts a candidate other than its own target, so that this candidate's
      rejection replaces whatever rejection there was. */
  predicate AbortsAnother(s: Status, pass: Pass)
  {
    && CandidateInFlight(s, pass) && pass.aborted
    && Position(s, pass).revision != pass.target && Position(s, pass).revision != Unset
  }

  // ---- One pass ----------------------------------------------------------

  /** What the state machine does with a rejected target. */
  lemma RejectedInput(s: Status, pass: Pass)
    requires TurnedDown(s, pass.target)
    ensures var out, st := CanaryOutput(Found(s, pass), pass), Position(s, pass);
      && out.st.failed == (if out.action == Rollback then st.revision else pass.target)
      && (IsActive(st.phase) && st.revision != pass.target ==> (out.action == Rollback <==> pass.aborted))
      && (IsActive(st.phase) && st.revision != pass.target && !pass.aborted ==>
            out.action in {Start, Wait} && out.st.revision == pass.target)
      && (!IsActive(st.phase) ==> out.action in {Nothing, Promote})
      && (IsActive(st.phase) && st.revision == pass.target ==> out.action != Nothing)
  {
    hide Split, RealizedWeight, Analyse, Observe, DueForAnalysis;
    var f := Found(s, pass);
    var inp := PlannedInput(f, pass);
    ObserveKeeps(pass.plan, RawInput(f, pass));
    ObserveKeepsIdentity(pass.plan, RawInput(f, pass));
    ObserveKeeps(pass.plan, inp);
    ObserveKeepsIdentity(pass.plan, inp);
    OnlyRollbackRejects(pass.plan, inp);
    AnalysisActs(pass.plan, Observe(pass.plan, inp));
  }

  /** From every phase, with or without a candidate in flight, the primary stays on the
      last good revision, and the rejected one is not banked. */
  lemma RejectedIsNotServed(s: Status, pass: Pass)
    requires TurnedDown(s, pass.target) && Workable(s, pass)
    ensures DecisionOf(s, pass).primaryRevision == s.lastGood
    ensures NextStatus(s, pass).lastGood == s.lastGood
  {
    hide Next, Observe, DueForAnalysis, MachineInput, CanaryOutput, Banks, DerivePhase;
    var f := Found(s, pass);
    if pass.canaryStrategy {
      CanaryPrimary(f, pass);
      RejectedInput(s, pass);
    }
  }

  /** The rejection lasts, unless the pass aborts a candidate other than the target. */
  lemma RejectionLastsIff(s: Status, pass: Pass)
    requires TurnedDown(s, pass.target) && Workable(s, pass)
    ensures FailedRevision(NextStatus(s, pass)) == pass.target <==> !AbortsAnother(s, pass)
  {
    hide Next, Observe, DueForAnalysis, MachineInput, CanaryOutput, Banks, DerivePhase;
    var f := Found(s, pass);
    if pass.canaryStrategy {
      CanaryPrimary(f, pass);
      RejectedInput(s, pass);
    }
  }

  /** A rejected target is tried again exactly when it arrives in mid-rollout and the
      rollout is not aborted. */
  lemma RejectedIsRetriedIff(s: Status, pass: Pass)
    requires TurnedDown(s, pass.target) && Workable(s, pass)
    requires !IsActive(Position(s, pass).phase) || Position(s, pass).revision != pass.target
    ensures DecisionOf(s, pass).active <==> CandidateInFlight(s, pass) && !pass.aborted
    ensures DecisionOf(s, pass).active ==> DecisionOf(s, pass).canaryRevision == pass.target
  {
    hide Next, Observe, DueForAnalysis, MachineInput, CanaryOutput, Banks, DerivePhase;
    if pass.canaryStrategy {
      RejectedInput(s, pass);
    }
  }

  /** A retry that passes every check is promoted in name only: the primary stays where
      it was, and the release counts as rejected again. */
  lemma RetriedWinnerIsWithheld(s: Status, pass: Pass)
    requires TurnedDown(s, pass.target) && pass.canaryStrategy
    requires DecisionOf(s, pass).output.action == Promote
    ensures HeldBack(s, DecisionOf(s, pass)) && DecisionOf(s, pass).rolledBack
    ensures NextStatus(s, pass).phase == StPromoting && NextStatus(s, pass).lastGood == s.lastGood
    ensures Rejected(NextStatus(s, pass), pass.target)
  {
    hide Next, Observe, DueForAnalysis, CanaryOutput, IsProgressing, IsAvailable, IsStalled;
    RejectedInput(s, pass);
  }

  // ---- Along the loop ----------------------------------------------------

  /** A loop whose spec keeps naming the rejected revision `r`. */
  ghost predicate InsistsOn(l: Loop, r: Revision)
  {
    && IsLoop(l) && TurnedDown(l.statuses[0], r) && FallbackIsLastGood(l.statuses[0])
    && forall j :: 0 <= j < |l.passes| ==>
         l.passes[j].target == r && (l.passes[j].canaryStrategy ==> Resolved(l.passes[j].plan))
  }

  ghost predicate Undisturbed(l: Loop, n: int)
    requires 0 <= n <= |l.passes| && |l.statuses| == |l.passes| + 1
  {
    forall j :: 0 <= j < n ==> !AbortsAnother(l.statuses[j], l.passes[j])
  }

  lemma FallbackSurvives(s: Status, pass: Pass)
    requires FallbackIsLastGood(s) && pass.target != Unset && Workable(s, pass)
    ensures FallbackIsLastGood(NextStatus(s, pass))
  {
    hide Next, Observe, DueForAnalysis, MachineInput, PlanCanary, IsProgressing, IsAvailable, IsStalled;
    if pass.canaryStrategy {
      BankedByPromotion(s, pass);
    }
  }

  lemma {:induction false} RejectionLasts(l: Loop, r: Revision, n: int)
    requires InsistsOn(l, r) && 0 <= n <= |l.passes| && Undisturbed(l, n)
    ensures TurnedDown(l.statuses[n], r) && FallbackIsLastGood(l.statuses[n])
    ensures l.statuses[n].lastGood == l.statuses[0].lastGood
    decreases n
  {
    hide NextStatus, AbortsAnother, FallbackIsLastGood, FailedRevision;
    if n > 0 {
      RejectionLasts(l, r, n - 1);
      assert LoopStep(l, n - 1);
      var s, pass := l.statuses[n - 1], l.passes[n - 1];
      assert pass.target == r;
      RejectedIsNotServed(s, pass);
      RejectionLastsIff(s, pass);
      FallbackSurvives(s, pass);
    }
  }

  /** Over whole loops, in flight or not: while no other candidate is aborted, every plan
      runs the last good revision and the rejected one is never banked. */
  lemma RejectedIsNeverServed(l: Loop, r: Revision, i: int)
    requires InsistsOn(l, r) && 0 <= i < |l.passes| && Undisturbed(l, i)
    ensures DecisionOf(l.statuses[i], l.passes[i]).primaryRevision == l.statuses[0].lastGood
    ensures l.statuses[i + 1].lastGood == l.statuses[0].lastGood
  {
    hide NextStatus, DecisionOf, AbortsAnother, FallbackIsLastGood, FailedRevision;
    RejectionLasts(l, r, i);
    assert LoopStep(l, i);
    assert l.passes[i].target == r;
    RejectedIsNotServed(l.statuses[i], l.passes[i]);
  }

  /** And the rejection is on record all along exactly when no other candidate was ever
      aborted. */
  lemma RejectionStaysIff(l: Loop, r: Revision, n: int)
    requires InsistsOn(l, r) && 0 <= n <= |l.passes|
    ensures (forall j :: 0 <= j <= n ==> FailedRevision(l.statuses[j]) == r) <==> Undisturbed(l, n)
  {
    hide NextStatus, AbortsAnother, FallbackIsLastGood, FailedRevision;
    if Undisturbed(l, n) {
      forall j | 0 <= j <= n
        ensures FailedRevision(l.statuses[j]) == r
      {
        RejectionLasts(l, r, j);
      }
    } else {
      var k := FirstAbort(l, n);
      RejectionLasts(l, r, k);
      assert LoopStep(l, k);
      assert l.passes[k].target == r;
      RejectionLastsIff(l.statuses[k], l.passes[k]);
      assert FailedRevision(l.statuses[k + 1]) != r;
    }
  }

  lemma {:induction false} FirstAbort(l: Loop, n: int) returns (k: int)
    requires |l.statuses| == |l.passes| + 1 && 0 <= n <= |l.passes| && !Undisturbed(l, n)
    ensures 0 <= k < n && AbortsAnother(l.statuses[k], l.passes[k]) && Undisturbed(l, k)
    decreases n
  {
    hide AbortsAnother;
    if Undisturbed(l, n - 1) {
      k := n - 1;
    } else {
      k := FirstAbort(l, n - 1);
    }
  }

  /** Once a retry of a rejected revision has passed every check, that release is held
      back on every later pass, for as long as the spec names it. */
  lemma WithheldForGood(l: Loop, i: int)
    requires IsLoop(l) && 0 < i < |l.passes| && forall j :: 0 <= j <= i ==> l.passes[j].target == l.passes[0].target
    requires TurnedDown(l.statuses[0], l.passes[0].target) && l.passes[0].canaryStrategy
    requires DecisionOf(l.statuses[0], l.passes[0]).output.action == Promote
    ensures HeldBack(l.statuses[0], DecisionOf(l.statuses[i], l.passes[i]))
    ensures l.statuses[i + 1].lastGood == l.statuses[0].lastGood
  {
    hide NextStatus, DecisionOf, TurnedDown;
    assert LoopStep(l, 0);
    RetriedWinnerIsWithheld(l.statuses[0], l.passes[0]);
    LoopTail(l);
    RejectionSticks(Loop(l.statuses[1..], l.passes[1..]), l.passes[0].target, i - 1);
  }

  // ---- Inputs that show it -----------------------------------------------

  const PLAN := Plan([50], 30, 60, 60, 3, 5, 5, HoldOn, false, 600)

  const SEEN := ReadinessTarget(0, 50, 4, 2, 1, Uid(1))

  /** Revision 3 is in flight over revision 1, and revision 2 was rejected before it. */
  function MidRollout(): Status
  {
    Status(StCanarying, Rev(1), Rev(1),
           HasCanary(CanaryStatus(Rev(3), Rev(1), Rev(2), false, 0, NO_TARGET, 0, 0, 0, At(0), Never, Never)))
  }

  /** A pass at revision 2, which is served by two ready canary pods once it exists. */
  function BackToTwo(now: int): Pass
  {
    ReconcilePass(now, Rev(2), 4, true, PLAN, true, false, Deployment(Uid(1), Rev(2), 1, 1, 2, 2, 2, 2),
                  true, Verdict.Pass, false, false, Missing, Missing, false)
  }

  /** A target that changes in mid-rollout goes straight to a fresh attempt, even at a
      rejected revision. */
  lemma RejectionDoesNotStickInFlight()
    ensures var s, pass := MidRollout(), BackToTwo(10);
      && TurnedDown(s, pass.target) && Workable(s, pass)
      && DecisionOf(s, pass).active && DecisionOf(s, pass).canaryRevision == Rev(2)
  {
    hide Next, Observe, DueForAnalysis;
    RejectedIsRetriedIff(MidRollout(), BackToTwo(10));
  }

  /** An abort at that moment erases the rejection of the target. */
  lemma AbortCanEraseARejection()
    ensures var s, pass := MidRollout(), BackToTwo(10).(aborted := true);
      && TurnedDown(s, pass.target) && Workable(s, pass)
      && FailedRevision(NextStatus(s, pass)) != Rev(2)
  {
    hide Next, Observe, DueForAnalysis;
    RejectionLastsIff(MidRollout(), BackToTwo(10).(aborted := true));
  }

  /** The status once the attempt at revision 2 has started. */
  function Retrying(readiness: ReadinessTarget, since: Instant): Status
  {
    Status(StCanarying, Rev(1), Rev(1),
           HasCanary(CanaryStatus(Rev(2), Rev(1), Rev(2), false, 0, readiness, 0, 0, 0, At(10), Never, since)))
  }

  /** Left alone, the retry starts, becomes ready, passes its only rung and is withheld. */
  lemma RetryCanWinAndBeWithheld() returns (l: Loop)
    ensures IsLoop(l) && |l.passes| == 3 && l.statuses[0] == MidRollout()
    ensures forall j :: 0 <= j < 3 ==> l.passes[j].target == Rev(2)
    ensures var d := DecisionOf(l.statuses[2], l.passes[2]);
      d.output.action == Promote && HeldBack(l.statuses[0], d) && l.statuses[3].lastGood == Rev(1)
  {
    hide NextStatus, DecisionOf;
    RetryStarts();
    RetryIsReady();
    RetryPasses();
    var last := NextStatus(Retrying(SEEN, At(20)), BackToTwo(140));
    l := Loop([MidRollout(), Retrying(NO_TARGET, Never), Retrying(SEEN, At(20)), last],
              [BackToTwo(10), BackToTwo(20), BackToTwo(140)]);
    assert LoopStep(l, 0) && LoopStep(l, 1) && LoopStep(l, 2);
    RetriedWinnerIsWithheld(Retrying(SEEN, At(20)), BackToTwo(140));
  }

  lemma RetryStarts()
    ensures NextStatus(MidRollout(), BackToTwo(10)) == Retrying(NO_TARGET, Never)
  {
  }

  lemma RetryIsSeen(readiness: ReadinessTarget, since: Instant, now: int)
    requires since == Never || readiness == SEEN
    ensures var raw := RawInput(Retrying(readiness, since), BackToTwo(now));
      Observe(PLAN, raw) == raw.(st := if since != Never then raw.st
                                       else raw.st.(phase := Observe(PLAN, raw).st.phase, readiness := SEEN,
                                                    availableSince := At(now)))
  {
    assert Split(4, 50) == Counts(2, 2);
    hide Split, RealizedWeight;
  }

  lemma RetryIsReady()
    ensures NextStatus(Retrying(NO_TARGET, Never), BackToTwo(20)) == Retrying(SEEN, At(20))
  {
    assert Split(4, 50) == Counts(2, 2);
    hide Split, RealizedWeight, Observe, Judge;
    var s, pass := Retrying(NO_TARGET, Never), BackToTwo(20);
    RetryIsSeen(NO_TARGET, Never, 20);
    ObserveIdempotent(PLAN, RawInput(s, pass));
    assert PlannedInput(s, pass) == Observe(PLAN, RawInput(s, pass));
  }

  lemma RetryPasses()
    ensures DecisionOf(Retrying(SEEN, At(20)), BackToTwo(140)).output.action == Promote
  {
    assert Split(4, 50) == Counts(2, 2);
    hide Split, RealizedWeight, Observe, HoldRejected, GuardAgainstStall;
    var s, pass := Retrying(SEEN, At(20)), BackToTwo(140);
    RetryIsSeen(SEEN, At(20), 140);
    PlannedIsMachineInput(s, pass);
  }
}
