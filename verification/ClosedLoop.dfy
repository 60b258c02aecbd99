/** The closed loop: status planned from, acted on, written back and planned from
    again (internal/controller/canary.go, status.go). */
module ClosedLoop {
  import opened Verdicts
  import opened Weights
  import opened CanaryMachine
  import opened CanaryRuns
  import opened Readiness
  import opened Rollout
  import opened AttemptTiming
  import opened AttemptEvidence
  import opened CanaryGuarantees

  /** Reconcile passes and the statuses between them. */
  datatype Loop = Loop(statuses: seq<Status>, passes: seq<Pass>)

  ghost predicate LoopStep(l: Loop, i: int)
    requires 0 <= i < |l.passes| && |l.statuses| == |l.passes| + 1
  {
    && l.statuses[i + 1] == NextStatus(l.statuses[i], l.passes[i])
    && (i > 0 ==> l.passes[i - 1].now <= l.passes[i].now)
  }

  ghost predicate IsLoop(l: Loop)
  {
    |l.statuses| == |l.passes| + 1 && forall i :: 0 <= i < |l.passes| ==> LoopStep(l, i)
  }

  // ---- A rejection sticks ------------------------------------------------

  /** Revision `r` was rejected, and there is something better to run. */
  predicate TurnedDown(s: Status, r: Revision)
  {
    r != Unset && FailedRevision(s) == r && s.lastGood != Unset && s.lastGood != r
  }

  /** And no candidate is in flight. */
  predicate Rejected(s: Status, r: Revision)
  {
    TurnedDown(s, r) && s.phase != StCanarying && s.phase != StPaused
  }

  /** The primary stays on the last good revision and no canary runs. */
  predicate HeldBack(s: Status, d: Decision)
  {
    d.primaryRevision == s.lastGood && d.canaryRevision == Unset && d.canaryReplicas == 0 && !d.active
  }

  lemma RejectionHolds(s: Status, pass: Pass, r: Revision)
    requires Rejected(s, r) && pass.target == r
    ensures HeldBack(s, DecisionOf(s, pass))
    ensures NextStatus(s, pass).lastGood == s.lastGood
    ensures Rejected(NextStatus(s, pass), r)
  {
    hide CanaryOutput, Sum, IsProgressing, IsAvailable, IsStalled;
    RejectedIsNotTried(s, pass, r);
  }

  lemma RejectedIsNotTried(s: Status, pass: Pass, r: Revision)
    requires Rejected(s, r) && pass.target == r
    ensures var out := CanaryOutput(Found(s, pass), pass); out.st.failed == r && out.action in {Nothing, Promote}
  {
    hide Split, RealizedWeight, Analyse;
    var f := Found(s, pass);
    assert PlannedInput(f, pass) == RawInput(f, pass);
  }

  /** Once rejected, a revision stays rejected for as long as the spec names it:
      under either strategy, any plan and any observations, every pass runs the last
      good revision without a canary, and the rejected one is never banked. */
  lemma {:induction false} RejectionSticks(l: Loop, r: Revision, i: int)
    requires IsLoop(l) && Rejected(l.statuses[0], r) && 0 <= i < |l.passes|
    requires forall j :: 0 <= j <= i ==> l.passes[j].target == r
    ensures Rejected(l.statuses[i + 1], r)
    ensures l.statuses[i + 1].lastGood == l.statuses[0].lastGood
    ensures HeldBack(l.statuses[0], DecisionOf(l.statuses[i], l.passes[i]))
    decreases i
  {
    hide NextStatus, DecisionOf;
    assert LoopStep(l, i);
    if i > 0 {
      RejectionSticks(l, r, i - 1);
    }
    RejectionHolds(l.statuses[i], l.passes[i], r);
  }

  /** A rollback of the target is a rejection of it. */
  lemma RollbackRejects(s: Status, pass: Pass)
    requires pass.target != Unset && s.lastGood != Unset && s.lastGood != pass.target
    requires DecisionOf(s, pass).output.action == Rollback && DecisionOf(s, pass).output.st.revision == pass.target
    ensures HeldBack(s, DecisionOf(s, pass))
    ensures NextStatus(s, pass).lastGood == s.lastGood
    ensures Rejected(NextStatus(s, pass), pass.target)
  {
    hide Next, Observe, DueForAnalysis, Sum, IsProgressing, IsAvailable;
    var f := Found(s, pass);
    var inp := PlannedInput(f, pass);
    OnlyRollbackRejects(pass.plan, inp);
    RollbackKeepsRevision(pass.plan, inp);
  }

  lemma RollbackKeepsRevision(p: Plan, inp: Input)
    ensures Next(p, inp).action == Rollback ==> Next(p, inp).st.revision == inp.st.revision
  {
    hide Split, RealizedWeight, Analyse, Observe;
    ObserveKeepsIdentity(p, inp);
    AnalysisRollbackKeeps(p, Observe(p, inp));
  }

  lemma AnalysisRollbackKeeps(p: Plan, o: Input)
    ensures Analyse(p, o).action == Rollback ==> Analyse(p, o).st.revision == o.st.revision
  {
  }

  /** The primary rollout of a target that nothing speaks against has stalled, and there is
      a revision to revert to. */
  predicate StalledOnTarget(s: Status, pass: Pass)
  {
    && pass.autoRollback && pass.primaryStalled
    && s.lastGood != Unset && s.lastGood != pass.target && FailedRevision(s) != pass.target
  }

  /** The pass rolls its target out on the primary, as a rolling update does at once and a
      canary when it promotes. */
  predicate RollsOut(s: Status, pass: Pass) { pass.canaryStrategy ==> DecisionOf(s, pass).output.action == Promote }

  /** So is a revert of a primary that stalled on it. */
  lemma StallRevertRejects(s: Status, pass: Pass)
    requires pass.target != Unset && StalledOnTarget(s, pass) && RollsOut(s, pass)
    ensures DecisionOf(s, pass).stallReverted
    ensures HeldBack(s, DecisionOf(s, pass))
    ensures NextStatus(s, pass).lastGood == s.lastGood
    ensures Rejected(NextStatus(s, pass), pass.target)
  {
    hide Next, Observe, DueForAnalysis, Sum, IsProgressing, IsAvailable;
    if pass.canaryStrategy {
      var f := Found(s, pass);
      ObserveKeeps(pass.plan, RawInput(f, pass));
      ObserveKeepsIdentity(pass.plan, RawInput(f, pass));
      ActiveRunsTarget(pass.plan, PlannedInput(f, pass));
      ActionFitsPhase(pass.plan, PlannedInput(f, pass));
      OnlyRollbackRejects(pass.plan, PlannedInput(f, pass));
    }
  }

  /** Nothing else is reverted as stalled. */
  lemma StallRevertsIff(s: Status, pass: Pass)
    requires pass.target != Unset && (pass.canaryStrategy ==> Resolved(pass.plan) && FallbackIsLastGood(s))
    ensures DecisionOf(s, pass).stallReverted <==> StalledOnTarget(s, pass) && RollsOut(s, pass)
  {
    hide Next, Observe, DueForAnalysis, MachineInput, PlanCanary;
    var f := Found(s, pass);
    if StalledOnTarget(s, pass) && RollsOut(s, pass) {
      StallRevertRejects(s, pass);
    } else if pass.canaryStrategy {
      CanaryPrimary(f, pass);
      MachineFields(s, pass);
      MachineRejection(s, pass);
      OnlyRollbackRejects(pass.plan, MachineInput(f, pass));
      ActiveRunsTarget(pass.plan, MachineInput(f, pass));
      ActionFitsPhase(pass.plan, MachineInput(f, pass));
    }
  }

  /** A rollout that was rolled back, or reverted because it stalled, stays that way for
      as long as the spec names it. */
  lemma RollbackSticks(l: Loop, i: int)
    requires IsLoop(l) && |l.passes| > 0 && 0 < i < |l.passes|
    requires var s, pass, d := l.statuses[0], l.passes[0], DecisionOf(l.statuses[0], l.passes[0]);
      && pass.target != Unset && s.lastGood != Unset && s.lastGood != pass.target
      && (|| (d.output.action == Rollback && d.output.st.revision == pass.target)
          || (StalledOnTarget(s, pass) && RollsOut(s, pass)))
    requires forall j :: 0 <= j <= i ==> l.passes[j].target == l.passes[0].target
    ensures HeldBack(l.statuses[0], DecisionOf(l.statuses[i], l.passes[i]))
    ensures l.statuses[i + 1].lastGood == l.statuses[0].lastGood
    ensures FailedRevision(l.statuses[i + 1]) == l.passes[0].target
  {
    hide NextStatus, DecisionOf;
    assert LoopStep(l, 0);
    var s, pass := l.statuses[0], l.passes[0];
    if StalledOnTarget(s, pass) && RollsOut(s, pass) {
      StallRevertRejects(s, pass);
    } else {
      RollbackRejects(s, pass);
    }
    var rest := Loop(l.statuses[1..], l.passes[1..]);
    LoopTail(l);
    RejectionSticks(rest, pass.target, i - 1);
  }

  lemma LoopTail(l: Loop)
    requires IsLoop(l) && |l.passes| > 0
    ensures IsLoop(Loop(l.statuses[1..], l.passes[1..]))
  {
    hide NextStatus;
    var rest := Loop(l.statuses[1..], l.passes[1..]);
    forall j | 0 <= j < |rest.passes|
      ensures LoopStep(rest, j)
    {
      assert LoopStep(l, j + 1);
    }
  }

  // ---- The loop is a run of the state machine ----------------------------

  /** The state machine input this pass amounts to: the restored position, with the
      round it ran, if it ran one. */
  function MachineInput(s: Status, pass: Pass): Input
  {
    var raw := RawInput(s, pass);
    if AnalysisDue(s, pass) && !ScopeIsPending(s, pass)
    then raw.(st := raw.st.(scopeReady := true), round := Ran(pass.verdict))
    else raw
  }

  lemma PlannedIsMachineInput(s: Status, pass: Pass)
    requires Resolved(pass.plan)
    ensures Next(pass.plan, PlannedInput(s, pass)) == Next(pass.plan, MachineInput(s, pass))
  {
    hide Split, RealizedWeight, Decide;
    var raw := RawInput(s, pass);
    ObserveIdempotent(pass.plan, raw);
    if AnalysisDue(s, pass) && !ScopeIsPending(s, pass) {
      assert !Resets(pass.plan, raw);
    }
  }

  /** What the loop must be for the promises about promotion: a named target and a canary
      plan on every pass, something to fall back to, and no rollout in flight at the
      start. The plan may be edited at any time. */
  ghost predicate EditedLoop(l: Loop)
  {
    && IsLoop(l) && l.statuses[0].lastGood != Unset
    && MachinePhase(l.statuses[0].phase) in {Idle, RollingBack}
    && forall i :: 0 <= i < |l.passes| ==>
         l.passes[i].canaryStrategy && Resolved(l.passes[i].plan) && l.passes[i].target != Unset
  }

  /** Such a loop of one plan. */
  ghost predicate CanaryLoop(p: Plan, l: Loop)
  {
    EditedLoop(l) && Resolved(p) && forall i :: 0 <= i < |l.passes| ==> l.passes[i].plan == p
  }

  ghost function Projection(l: Loop): (tr: Trace)
    requires |l.statuses| == |l.passes| + 1
    ensures |tr.plans| == |tr.ins| == |tr.outs| == |l.passes|
  {
    Trace(seq(|l.passes|, i requires 0 <= i < |l.passes| => l.passes[i].plan),
          seq(|l.passes|, i requires 0 <= i < |l.passes| => MachineInput(Found(l.statuses[i], l.passes[i]), l.passes[i])),
          seq(|l.passes|, i requires 0 <= i < |l.passes| =>
                Next(l.passes[i].plan, MachineInput(Found(l.statuses[i], l.passes[i]), l.passes[i]))))
  }

  /** A persisted pass hands its position over to the next. */
  lemma PassHandsOver(s: Status, pass: Pass, pass': Pass)
    requires pass.canaryStrategy && Resolved(pass.plan) && pass.target != Unset
    ensures var out := Next(pass.plan, MachineInput(Found(s, pass), pass));
      Handover(out.st, MachineInput(Found(NextStatus(s, pass), pass'), pass').st)
  {
    hide Next, Observe, DueForAnalysis, Sum, IsProgressing, IsAvailable, IsStalled, DerivePhase;
    var f := Found(s, pass);
    PlannedIsMachineInput(f, pass);
    RestoredPass(f, pass);
  }

  lemma RestoredPass(s: Status, pass: Pass)
    requires pass.canaryStrategy && Resolved(pass.plan) && pass.target != Unset
    ensures var out := Next(pass.plan, MachineInput(s, pass));
      var t := Restore(ComputeStatus(s, pass, PlanRollout(s, pass)));
      t.phase == Idle || SamePosition(out.st.(failed := t.failed, scopeReady := t.scopeReady), t)
  {
    hide Next, Observe, DueForAnalysis, Sum, IsProgressing, IsAvailable, IsStalled;
    PlannedIsMachineInput(s, pass);
    var inp := MachineInput(s, pass);
    ActionFitsPhase(pass.plan, inp);
    ActiveRunsTarget(pass.plan, inp);
    IdleIsFresh(pass.plan, inp);
    assert inp.target == pass.target;
  }

  /** Every closed loop is a run of the state machine, by the plan of each pass. */
  lemma ProjectionIsEditedRun(l: Loop)
    requires EditedLoop(l)
    ensures IsEditedRun(Projection(l))
  {
    hide Next, MachineInput, NextStatus, Found;
    var tr := Projection(l);
    forall i | 0 <= i < |tr.ins|
      ensures EditedStep(tr, i)
    {
      assert LoopStep(l, i);
      assert Resolved(l.passes[i].plan);
      MachineFields(l.statuses[i], l.passes[i]);
      if i > 0 {
        assert LoopStep(l, i - 1);
        assert Resolved(l.passes[i - 1].plan);
        MachineFields(l.statuses[i - 1], l.passes[i - 1]);
        PassHandsOver(l.statuses[i - 1], l.passes[i - 1], l.passes[i]);
      }
    }
  }

  lemma ProjectionIsRun(p: Plan, l: Loop)
    requires CanaryLoop(p, l)
    ensures IsRun(p, Projection(l))
  {
    hide Next, MachineInput, NextStatus, Found;
    var tr := Projection(l);
    ProjectionIsEditedRun(l);
    forall i | 0 <= i < |tr.ins|
      ensures Step(p, tr, i)
    {
      assert EditedStep(tr, i);
      assert l.passes[i].plan == p;
    }
  }

  lemma MachineFields(s: Status, pass: Pass)
    ensures var inp := MachineInput(Found(s, pass), pass);
      inp.now == pass.now && inp.target == pass.target && inp.stable == s.lastGood && inp.approved == pass.approved
    ensures MachinePhase(s.phase) in {Idle, RollingBack} ==>
      MachineInput(Found(s, pass), pass).st.phase in {Idle, RollingBack}
  {
  }

  lemma MachineRejection(s: Status, pass: Pass)
    ensures MachineInput(Found(s, pass), pass).st.failed == FailedRevision(s)
  {
  }

  // ---- What is run -------------------------------------------------------

  /** A started candidate gets the split of its rung's weight and the primary the rest; in
      every other plan the primary has all the replicas there are. */
  lemma PlanFollowsRung(s: Status, pass: Pass)
    requires pass.canaryStrategy ==> Resolved(pass.plan) && Coherent(Restore(Found(s, pass)))
    requires pass.target != Unset
    ensures var d := DecisionOf(s, pass); var st := d.output.st;
      if d.active && st.startedAt != Never then
        && st.step >= 0 && d.canaryRevision == pass.target
        && d.canaryReplicas == Split(pass.total, RungWeight(pass.plan, st.step)).canary
        && d.primaryReplicas == Split(pass.total, RungWeight(pass.plan, st.step)).primary
      else d.canaryReplicas == 0 && d.primaryReplicas == pass.total
    ensures !DecisionOf(s, pass).active ==> DecisionOf(s, pass).canaryRevision == Unset
  {
    hide PlanCanary, Split;
    if pass.canaryStrategy {
      CanaryCounts(Found(s, pass), pass);
    }
  }

  lemma CanaryCounts(s: Status, pass: Pass)
    requires Resolved(pass.plan) && Coherent(Restore(s)) && pass.target != Unset
    ensures var d := PlanCanary(s, pass); var st := d.output.st;
      && !d.rolledBack && (!d.active ==> d.canaryRevision == Unset)
      && if d.active && st.startedAt != Never then
           && st.step >= 0 && d.canaryRevision == pass.target
           && d.canaryReplicas == Split(pass.total, RungWeight(pass.plan, st.step)).canary
           && d.primaryReplicas == Split(pass.total, RungWeight(pass.plan, st.step)).primary
         else d.canaryReplicas == 0 && d.primaryReplicas == pass.total
  {
    hide Next, Observe, DueForAnalysis, Split, RealizedWeight;
    var inp := MachineInput(s, pass);
    PlannedIsMachineInput(s, pass);
    WeightsAreHonest(pass.plan, inp);
    ActionFitsPhase(pass.plan, inp);
    ActiveRunsTarget(pass.plan, inp);
  }

  /** So the share planned for a started candidate is off by less than a pod, on every pass
      of every loop. */
  lemma ExposureIsPlanned(l: Loop, i: int)
    requires EditedLoop(l) && 0 <= i < |l.passes| && l.passes[i].total >= 1
    requires forall k :: 0 <= k < |l.passes[i].plan.weights| ==> 1 <= l.passes[i].plan.weights[k] <= 100
    ensures var d, pass := DecisionOf(l.statuses[i], l.passes[i]), l.passes[i];
      d.active && d.output.st.startedAt != Never ==>
        && d.output.st.step >= 0 && d.primaryReplicas + d.canaryReplicas == pass.total
        && -99 <= 100 * d.canaryReplicas - RungWeight(pass.plan, d.output.st.step) * pass.total <= 99
  {
    hide Next, MachineInput, NextStatus, DecisionOf, Split;
    ProjectionIsEditedRun(l);
    CoherentRun(Projection(l), i);
    var s, pass := l.statuses[i], l.passes[i];
    assert Resolved(pass.plan);
    MachinePosition(s, pass);
    PlanFollowsRung(s, pass);
    var d := DecisionOf(s, pass);
    if d.active && d.output.st.startedAt != Never {
      SplitQuantization(pass.total, RungWeight(pass.plan, d.output.st.step));
    }
  }

  lemma MachinePosition(s: Status, pass: Pass)
    ensures Coherent(MachineInput(Found(s, pass), pass).st) <==> Coherent(Restore(Found(s, pass)))
  {
  }

  // ---- What may become the rollback target -------------------------------

  /** While a candidate is in flight, its fallback is the last good revision. */
  predicate FallbackIsLastGood(s: Status)
  {
    && s.lastGood != Unset
    && (s.canary.HasCanary? && IsActive(MachinePhase(s.phase)) ==> s.canary.cs.stable == s.lastGood)
  }

  lemma FallbackKept(p: Plan, inp: Input)
    requires Resolved(p) && (IsActive(inp.st.phase) ==> inp.st.stable == inp.stable)
    ensures var out := Next(p, inp);
      IsActive(out.st.phase) || out.action == Rollback ==> out.st.stable == inp.stable
  {
    hide Split, RealizedWeight, Analyse;
    FallbackAnalysed(p, Observe(p, inp));
  }

  lemma FallbackAnalysed(p: Plan, o: Input)
    ensures o.st.stable == o.stable ==> Analyse(p, o).st.stable == o.stable
  {
  }

  /** With a fallback in place, the machine rests only on the stable revision or on a
      rejected one. */
  lemma RestsWithReason(p: Plan, inp: Input)
    requires inp.target != Unset && inp.stable != Unset && Next(p, inp).action == Nothing
    ensures inp.target == inp.stable || inp.target == Next(p, inp).st.failed
  {
    hide Split, RealizedWeight, Analyse;
    AnalysisActs(p, Observe(p, inp));
  }

  /** What planCanary alone decides for the primary. */
  lemma CanaryPrimary(s: Status, pass: Pass)
    requires pass.canaryStrategy && Resolved(pass.plan) && pass.target != Unset && FallbackIsLastGood(s)
    ensures var d, out := PlanCanary(s, pass), Next(pass.plan, MachineInput(s, pass));
      && d.output.action == out.action && d.output.st == out.st && !d.rolledBack && !d.stallReverted
      && (out.action == Promote ==> d.primaryRevision == out.st.revision && !d.active)
      && (out.action != Promote ==>
            d.primaryRevision == s.lastGood || (d.primaryRevision == pass.target == out.st.failed && !d.active))
      && (IsActive(out.st.phase) ==> out.st.stable == d.primaryRevision == s.lastGood)
  {
    hide Next, Observe, DueForAnalysis;
    var inp := MachineInput(s, pass);
    PlannedIsMachineInput(s, pass);
    ActionFitsPhase(pass.plan, inp);
    FallbackKept(pass.plan, inp);
    if Next(pass.plan, inp).action == Nothing {
      RestsWithReason(pass.plan, inp);
    }
  }

  /** The primary runs the last good revision unless the pass promotes. */
  lemma PrimaryIsLastGood(s: Status, pass: Pass)
    requires pass.canaryStrategy && Resolved(pass.plan) && pass.target != Unset && FallbackIsLastGood(s)
    ensures var d, out := PlanRollout(s, pass), Next(pass.plan, MachineInput(s, pass));
      && d.output.action == out.action
      && d.output.st == out.st.(failed := d.output.st.failed)
      && d.primaryRevision in {s.lastGood, if out.action == Promote then out.st.revision else s.lastGood}
      && (IsActive(out.st.phase) ==> out.st.stable == s.lastGood && d.primaryRevision == s.lastGood)
  {
    hide Next, MachineInput, PlanCanary;
    CanaryPrimary(s, pass);
  }

  /** A pass banks a new revision only by promoting it. */
  lemma BankedByPromotion(s: Status, pass: Pass)
    requires pass.canaryStrategy && Resolved(pass.plan) && pass.target != Unset && FallbackIsLastGood(s)
    ensures var s', out := NextStatus(s, pass), Next(pass.plan, MachineInput(Found(s, pass), pass));
      && FallbackIsLastGood(s')
      && (s'.lastGood != s.lastGood ==> out.action == Promote && s'.lastGood == out.st.revision)
  {
    hide Next, MachineInput, PlanRollout, Banks, IsProgressing, IsAvailable, IsStalled;
    var f := Found(s, pass);
    PrimaryIsLastGood(f, pass);
    MachineFields(s, pass);
    ActiveRunsTarget(pass.plan, MachineInput(f, pass));
    ActionFitsPhase(pass.plan, MachineInput(f, pass));
  }

  lemma {:induction false} FallbackRun(l: Loop, i: int)
    requires EditedLoop(l) && 0 <= i <= |l.passes|
    ensures FallbackIsLastGood(l.statuses[i])
    decreases i
  {
    hide Next, MachineInput, NextStatus, Found;
    if i > 0 {
      FallbackRun(l, i - 1);
      assert LoopStep(l, i - 1);
      assert Resolved(l.passes[i - 1].plan);
      BankedByPromotion(l.statuses[i - 1], l.passes[i - 1]);
    }
  }

  /** In every closed loop, a revision that newly becomes the rollback target had a
      passing round consumed at every rung of one attempt, and an approval if the
      plan requires one. */
  lemma NewLastGoodIsEarned(p: Plan, l: Loop, i: int) returns (a: Attempt)
    requires CanaryLoop(p, l) && p.onInconclusive != PromoteOn && 0 <= i < |l.passes|
    requires l.statuses[i + 1].lastGood != l.statuses[i].lastGood
    ensures Climbed(p, Projection(l), a, l.statuses[i + 1].lastGood, i)
    ensures |a.rungs| == |p.weights|
    ensures forall k :: 0 <= k < |a.rungs| ==> 0 <= a.rungs[k] < |l.passes| && l.passes[a.rungs[k]].verdict == Verdict.Pass
    ensures p.requireApproval ==> 0 <= a.approval <= i && l.passes[a.approval].approved
  {
    hide Next, MachineInput, NextStatus, Found, PassedRung;
    var tr := Projection(l);
    ProjectionIsRun(p, l);
    FallbackRun(l, i);
    assert LoopStep(l, i);
    assert l.passes[i].plan == p;
    BankedByPromotion(l.statuses[i], l.passes[i]);
    a := PromotionIsEarned(p, tr, i);
    forall k | 0 <= k < |a.rungs|
      ensures 0 <= a.rungs[k] < |l.passes| && l.passes[a.rungs[k]].verdict == Verdict.Pass
    {
      var j := a.rungs[k];
      PassWasRun(p, l.statuses[j], l.passes[j], k, l.statuses[i + 1].lastGood);
    }
    if p.requireApproval {
      MachineFields(l.statuses[a.approval], l.passes[a.approval]);
    }
  }

  lemma PassWasRun(p: Plan, s: Status, pass: Pass, k: int, r: Revision)
    requires PassedRung(p, MachineInput(Found(s, pass), pass), k, r)
    ensures pass.verdict == Verdict.Pass
  {
  }

  /** The timing bound holds around the loop too: what is banked anew took at least
      one warm-up and window per rung since its attempt started. */
  lemma NewLastGoodTookItsTime(p: Plan, l: Loop, i: int) returns (a: Attempt)
    requires CanaryLoop(p, l) && p.onInconclusive != PromoteOn && 0 <= i < |l.passes|
    requires l.statuses[i + 1].lastGood != l.statuses[i].lastGood
    ensures 0 <= a.start < i && Projection(l).outs[a.start].action == Start
    ensures l.passes[i].now >= l.passes[a.start].now + |p.weights| * (p.initialDelay + p.window)
  {
    hide Next, MachineInput, NextStatus, Found, PassedRung;
    var tr := Projection(l);
    ProjectionIsRun(p, l);
    FallbackRun(l, i);
    assert LoopStep(l, i);
    assert l.passes[i].plan == p;
    BankedByPromotion(l.statuses[i], l.passes[i]);
    a := PromotionIsEarned(p, tr, i);
    PromotionTakesEveryWindow(p, tr, i);
    StartTimeKept(p, tr, a.start, i);
    MachineFields(l.statuses[i], l.passes[i]);
    MachineFields(l.statuses[a.start], l.passes[a.start]);
  }

  // ---- What is banked is serving -----------------------------------------

  /** While a candidate is in flight nothing is banked, from any status whatever. */
  lemma InFlightNeverBanks(s: Status, pass: Pass)
    requires DecisionOf(s, pass).output.action in {Start, Wait, Advance}
             || (DecisionOf(s, pass).output.action == Pause && DecisionOf(s, pass).output.canary > 0)
    ensures NextStatus(s, pass).lastGood == s.lastGood
  {
    hide DecisionOf;
  }

  /** The two workloads together are exactly the desired replicas, all of them updated to
      the target and available, under an observed and unstalled primary. */
  predicate Serving(pass: Pass)
  {
    var w, c := pass.primaryAfter, pass.canaryAfter;
    && w.Workload? && !w.stalled && w.observedGeneration >= w.generation
    && w.replicas + (if c.Workload? then c.replicas else 0) == pass.total
    && w.updated + (if c.Workload? then c.updated else 0) == pass.total
    && w.available + (if c.Workload? then c.available else 0) == pass.total
    && (pass.total == 0 || w.ready + (if c.Workload? then c.ready else 0) > 0)
  }

  lemma FleetOfTwo(a: Workload, b: Workload)
    ensures Sum([a, b]).replicas ==
            (if a.Workload? then a.replicas else 0) + (if b.Workload? then b.replicas else 0)
    ensures Sum([a, b]).ready == (if a.Workload? then a.ready else 0) + (if b.Workload? then b.ready else 0)
    ensures Sum([a, b]).available ==
            (if a.Workload? then a.available else 0) + (if b.Workload? then b.available else 0)
  {
    assert [a, b][..1] == [a] && [a][..0] == [] && Sum([]) == Fleet(0, 0, 0);
  }

  /** Nothing is banked before it serves. */
  lemma BankedIsServing(s: Status, pass: Pass)
    requires pass.target != Unset && NextStatus(s, pass).lastGood != s.lastGood
    requires pass.canaryStrategy ==> Resolved(pass.plan) && FallbackIsLastGood(s)
    ensures NextStatus(s, pass).lastGood == pass.target && Serving(pass)
  {
    hide Next, Observe, DueForAnalysis, Sum, CanaryInFlight, MachineInput, PlanCanary;
    var f := Found(s, pass);
    FleetOfTwo(pass.primaryAfter, pass.canaryAfter);
    if pass.canaryStrategy {
      CanaryPrimary(f, pass);
      MachineFields(s, pass);
      ActionFitsPhase(pass.plan, MachineInput(f, pass));
      ActiveRunsTarget(pass.plan, MachineInput(f, pass));
    }
  }
}
