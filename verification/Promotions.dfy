/** What becomes of a promotion (internal/canary/state.go:590-620,
    internal/controller/canary.go:147-249, internal/controller/status.go:155-185): when the
    promoted revision is banked, when it is withheld, and when it is canaried again. */
module Promotions {
  import opened Verdicts
  import opened Weights
  import opened CanaryMachine
  import opened CanaryRuns
  import opened Rollout
  import opened CanaryGuarantees
  import opened ClosedLoop

  // ---- Banking -----------------------------------------------------------

  /** The controller keeps the primary on the last good revision although the state
      machine promotes: the target is on record as rejected, or its rollout stalled. */
  predicate Withheld(s: Status, pass: Pass)
  {
    && s.lastGood != Unset && s.lastGood != pass.target
    && (FailedRevision(s) == pass.target || (pass.autoRollback && pass.primaryStalled))
  }

  /** A promoted revision is banked exactly when it is not withheld and serves on every
      desired replica. */
  lemma PromotionIsBankedIff(s: Status, pass: Pass)
    requires pass.canaryStrategy && pass.target != Unset && DecisionOf(s, pass).output.action == Promote
    ensures DecisionOf(s, pass).rolledBack <==> Withheld(s, pass)
    ensures DecisionOf(s, pass).primaryRevision == if Withheld(s, pass) then s.lastGood else pass.target
    ensures NextStatus(s, pass).lastGood ==
            if !Withheld(s, pass) && Serving(pass) then pass.target else s.lastGood
    ensures Settling(NextStatus(s, pass), pass.target)
  {
    hide DecisionOf, Sum, Serving, Banks;
    PromotedDecision(s, pass);
    if !Withheld(s, pass) {
      ServingIsBanked(pass, DecisionOf(s, pass));
    }
  }

  lemma PromotedDecision(s: Status, pass: Pass)
    requires pass.canaryStrategy && pass.target != Unset && DecisionOf(s, pass).output.action == Promote
    ensures var d := DecisionOf(s, pass);
      && (d.rolledBack <==> Withheld(s, pass))
      && d.primaryRevision == (if Withheld(s, pass) then s.lastGood else pass.target)
      && d.output.st.revision == pass.target && d.output.st.phase == Promoting
  {
    hide CanaryOutput;
    PromotingOutput(Found(s, pass), pass);
  }

  lemma PromotingOutput(s: Status, pass: Pass)
    requires CanaryOutput(s, pass).action == Promote
    ensures var st := CanaryOutput(s, pass).st;
      st.revision == pass.target && st.phase == Promoting && st.failed == Restore(s).failed
  {
    hide Next, Observe, DueForAnalysis;
    var inp := PlannedInput(s, pass);
    ObserveKeeps(pass.plan, RawInput(s, pass));
    ObserveKeepsIdentity(pass.plan, RawInput(s, pass));
    ActionFitsPhase(pass.plan, inp);
    ActiveRunsTarget(pass.plan, inp);
    OnlyRollbackRejects(pass.plan, inp);
  }

  lemma ServingIsBanked(pass: Pass, d: Decision)
    requires d.output.action == Promote && d.primaryRevision == pass.target != Unset && !d.rolledBack
    ensures Banks(pass, d) <==> Serving(pass)
  {
    hide Sum;
    FleetOfTwo(pass.primaryAfter, pass.canaryAfter);
  }

  // ---- Settling ----------------------------------------------------------

  /** Revision `r` is being promoted, or nothing is in flight and there is a reason not to
      try it: it is the last good revision, there is none, or it was rejected. */
  predicate Settling(s: Status, r: Revision)
  {
    || (s.phase == StPromoting && s.canary.HasCanary? && s.canary.cs.revision == r)
    || (MachinePhase(s.phase) in {Idle, RollingBack} && (s.lastGood in {r, Unset} || FailedRevision(s) == r))
  }

  /** The pass forgets an unbanked promotion. Under the canary strategy that is a spec found
      unusable while its revision was being promoted (failTerminally); a rolling update
      forgets it unless it completes or is withheld on that very pass. */
  predicate ForgetsPromotion(s: Status, pass: Pass)
  {
    && s.lastGood != Unset && s.lastGood != pass.target
    && if pass.canaryStrategy then pass.interrupted && s.phase == StPromoting && FailedRevision(s) != pass.target
       else !Withheld(s, pass) && !Serving(pass)
  }

  /** Under the canary strategy a settling revision goes through a canary again exactly
      when its promotion was forgotten. */
  lemma SettlingStep(s: Status, pass: Pass)
    requires Settling(s, pass.target) && pass.target != Unset && pass.canaryStrategy && Resolved(pass.plan)
    ensures DecisionOf(s, pass).active <==> ForgetsPromotion(s, pass)
    ensures Settling(NextStatus(s, pass), pass.target) <==> !ForgetsPromotion(s, pass)
    ensures !ForgetsPromotion(s, pass) ==> DecisionOf(s, pass).output.action in {Promote, Nothing}
    ensures s.lastGood == pass.target ==> NextStatus(s, pass).lastGood == pass.target
  {
    hide CanaryOutput, Sum, IsProgressing, IsAvailable, IsStalled;
    SettlingOutput(s, pass);
  }

  lemma SettlingOutput(s: Status, pass: Pass)
    requires Settling(s, pass.target) && pass.target != Unset && pass.canaryStrategy && Resolved(pass.plan)
    ensures var out := CanaryOutput(Found(s, pass), pass);
      if ForgetsPromotion(s, pass) then out.action in {Start, Wait} && out.st.revision == pass.target
      else
        && out.action in {Promote, Nothing} && out.st.failed == FailedRevision(s)
        && (out.action == Promote ==> out.st.revision == pass.target)
        && (out.action == Nothing ==> s.lastGood in {pass.target, Unset} || FailedRevision(s) == pass.target)
  {
    hide Split, RealizedWeight, Analyse;
    var f := Found(s, pass);
    assert PlannedInput(f, pass) == RawInput(f, pass);
  }

  lemma RollingStep(s: Status, pass: Pass)
    requires Settling(s, pass.target) && pass.target != Unset && !pass.canaryStrategy
    ensures Settling(NextStatus(s, pass), pass.target) <==> !ForgetsPromotion(s, pass)
    ensures !DecisionOf(s, pass).active && DecisionOf(s, pass).output.action == Undecided
    ensures s.lastGood == pass.target ==> NextStatus(s, pass).lastGood == pass.target
  {
    hide Sum;
    FleetOfTwo(pass.primaryAfter, pass.canaryAfter);
  }

  /** The spec names `r` on every pass. */
  ghost predicate NamedThroughout(l: Loop, r: Revision)
  {
    forall j :: 0 <= j < |l.passes| ==>
      l.passes[j].target == r && (l.passes[j].canaryStrategy ==> Resolved(l.passes[j].plan))
  }

  ghost predicate Remembered(l: Loop, n: int)
    requires 0 <= n <= |l.passes| && |l.statuses| == |l.passes| + 1
  {
    forall j :: 0 <= j < n ==> !ForgetsPromotion(l.statuses[j], l.passes[j])
  }

  lemma AnyStep(s: Status, pass: Pass)
    requires Settling(s, pass.target) && pass.target != Unset && (pass.canaryStrategy ==> Resolved(pass.plan))
    ensures Settling(NextStatus(s, pass), pass.target) <==> !ForgetsPromotion(s, pass)
    ensures !ForgetsPromotion(s, pass) ==>
      !DecisionOf(s, pass).active && DecisionOf(s, pass).output.action in {Promote, Nothing, Undecided}
    ensures pass.canaryStrategy && ForgetsPromotion(s, pass) ==> DecisionOf(s, pass).active
    ensures s.lastGood == pass.target ==> NextStatus(s, pass).lastGood == pass.target
  {
    hide DecisionOf, NextStatus, Settling, ForgetsPromotion;
    if pass.canaryStrategy {
      SettlingStep(s, pass);
    } else {
      RollingStep(s, pass);
    }
  }

  lemma {:induction false} SettlesWhileRemembered(l: Loop, r: Revision, n: int)
    requires IsLoop(l) && NamedThroughout(l, r) && r != Unset && Settling(l.statuses[0], r)
    requires 0 <= n <= |l.passes| && Remembered(l, n)
    ensures Settling(l.statuses[n], r)
    decreases n
  {
    hide NextStatus, DecisionOf, Settling, ForgetsPromotion;
    if n > 0 {
      SettlesWhileRemembered(l, r, n - 1);
      assert LoopStep(l, n - 1);
      assert l.passes[n - 1].target == r;
      AnyStep(l.statuses[n - 1], l.passes[n - 1]);
    }
  }

  /** A promotion settles exactly when no pass forgets it: each pass then repeats the
      promotion or does nothing, and no canary runs. Under the canary strategy, forgetting
      it means another canary. */
  lemma PromotionSettlesIff(l: Loop, r: Revision, n: int)
    requires IsLoop(l) && NamedThroughout(l, r) && r != Unset && Settling(l.statuses[0], r)
    requires 0 <= n <= |l.passes|
    ensures (forall j :: 0 <= j <= n ==> Settling(l.statuses[j], r)) <==> Remembered(l, n)
    ensures Remembered(l, n) ==>
      forall j :: 0 <= j < n ==>
        var d := DecisionOf(l.statuses[j], l.passes[j]);
        !d.active && d.output.action in {Promote, Nothing, Undecided}
    ensures (forall j :: 0 <= j < n ==> l.passes[j].canaryStrategy) ==>
      ((forall j :: 0 <= j < n ==> !DecisionOf(l.statuses[j], l.passes[j]).active) <==> Remembered(l, n))
  {
    hide NextStatus, DecisionOf, Settling, ForgetsPromotion;
    if Remembered(l, n) {
      forall j | 0 <= j <= n
        ensures Settling(l.statuses[j], r)
        ensures j < n ==> !DecisionOf(l.statuses[j], l.passes[j]).active
        ensures j < n ==> DecisionOf(l.statuses[j], l.passes[j]).output.action in {Promote, Nothing, Undecided}
      {
        SettlesWhileRemembered(l, r, j);
        if j < n {
          assert l.passes[j].target == r;
          AnyStep(l.statuses[j], l.passes[j]);
        }
      }
    } else {
      var k := FirstForgotten(l, n);
      SettlesWhileRemembered(l, r, k);
      assert LoopStep(l, k);
      assert l.passes[k].target == r;
      AnyStep(l.statuses[k], l.passes[k]);
      assert !Settling(l.statuses[k + 1], r);
    }
  }

  /** Once banked, it stays banked and is never tried again. */
  lemma {:induction false} BankedStaysBanked(l: Loop, r: Revision, n: int)
    requires IsLoop(l) && NamedThroughout(l, r) && r != Unset && 0 <= n <= |l.passes|
    requires Settling(l.statuses[0], r) && l.statuses[0].lastGood == r
    ensures Settling(l.statuses[n], r) && l.statuses[n].lastGood == r && Remembered(l, n)
    decreases n
  {
    hide NextStatus, DecisionOf, Settling;
    if n > 0 {
      BankedStaysBanked(l, r, n - 1);
      assert LoopStep(l, n - 1);
      assert l.passes[n - 1].target == r;
      AnyStep(l.statuses[n - 1], l.passes[n - 1]);
    }
  }

  lemma {:induction false} FirstForgotten(l: Loop, n: int) returns (k: int)
    requires |l.statuses| == |l.passes| + 1 && 0 <= n <= |l.passes| && !Remembered(l, n)
    ensures 0 <= k < n && ForgetsPromotion(l.statuses[k], l.passes[k]) && Remembered(l, k)
    decreases n
  {
    hide ForgetsPromotion;
    if Remembered(l, n - 1) {
      k := n - 1;
    } else {
      k := FirstForgotten(l, n - 1);
    }
  }

  /** A revision that passed every check, found unusable for a moment while the primary
      converged on it, starts its ladder again. */
  lemma PromotedCanBeCanariedAgain() returns (s: Status, pass: Pass)
    ensures Settling(s, pass.target) && s.phase == StPromoting && pass.canaryStrategy && Resolved(pass.plan)
    ensures DecisionOf(s, pass).output.action == Start && DecisionOf(s, pass).canaryRevision == pass.target
  {
    var plan := Plan([50], 30, 60, 60, 3, 5, 5, HoldOn, false, 600);
    var cs := CanaryStatus(Rev(2), Rev(1), Unset, true, 0, NO_TARGET, 0, 0, 0, At(0), At(120), At(0));
    s := Status(StPromoting, Rev(2), Rev(1), HasCanary(cs));
    var none := Deployment(NoUid, Unset, 0, 0, 0, 0, 0, 0);
    pass := ReconcilePass(130, Rev(2), 4, true, plan, true, false, none, false, Verdict.Pass, false, false,
                          Missing, Missing, true);
  }
}
