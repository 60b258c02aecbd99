/** What survives an edit of the plan in mid-rollout. Rollout settings are not part of a
    revision, so a ladder can change under a candidate in flight
    (api/v1alpha1/rollout_types.go:250-256): budgets and evidence stay exact
    (`BudgetsFollowHistory`, `EvidenceIsFresh`), but which rungs have to be passed is up to
    the plan in force at the time. */
module PlanEdits {
  import opened Verdicts
  import opened Weights
  import opened CanaryMachine
  import opened CanaryRuns
  import opened AttemptTiming
  import opened AttemptEvidence
  import opened CanaryGuarantees
  import opened FastestPromotion
  import opened Rollout
  import opened ClosedLoop

  /** The pass consumed a passing round on the last rung of its plan, or past it. */
  predicate PassedTop(p: Plan, inp: Input)
  {
    Consumes(p, inp) && inp.round == Ran(Pass) && inp.st.step >= |p.weights| - 1
  }

  /** Pass `j` did so for revision `r`, and no pass since, up to `i`, restarted. */
  ghost predicate Topped(tr: Trace, j: int, i: int, r: Revision)
  {
    && 0 <= j <= i < |tr.plans| == |tr.ins| == |tr.outs|
    && PassedTop(tr.plans[j], tr.ins[j]) && tr.ins[j].st.revision == r
    && forall m :: j < m <= i ==> Continues(tr.outs[m]) && tr.outs[m].st.revision == r
  }

  /** An operator approved it on pass `k`, while it was paused. */
  ghost predicate ApprovedAt(tr: Trace, j: int, k: int, i: int)
  {
    0 <= j < k <= i < |tr.ins| && tr.ins[k].approved && tr.ins[k].st.phase == Paused
  }

  ghost predicate NeverPromotesUnjudged(tr: Trace)
  {
    forall j :: 0 <= j < |tr.plans| ==> tr.plans[j].onInconclusive != PromoteOn
  }

  /** Only an attempt that goes on can have won. */
  lemma NothingWon(p: Plan, inp: Input)
    requires Resolved(p) && Coherent(inp.st) && !Continues(Next(p, inp))
    ensures Next(p, inp).st.phase !in {Paused, Promoting}
  {
    hide Split, RealizedWeight, Analyse;
    AnalysisContinues(p, Observe(p, inp));
  }

  lemma JudgedAtTop(p: Plan, inp: Input)
    requires Resolved(p) && p.onInconclusive != PromoteOn && Consumes(p, inp)
    requires Next(p, inp).st.phase in {Paused, Promoting}
    ensures PassedTop(p, inp) && (Next(p, inp).st.phase == Paused <==> p.requireApproval)
  {
    hide Split, RealizedWeight, Decide, FullyReady, TargetOf;
    ConsumedRound(p, inp);
  }

  lemma {:induction false} Topping(tr: Trace, i: int) returns (j: int, k: int)
    requires IsEditedRun(tr) && NeverPromotesUnjudged(tr) && 0 <= i < |tr.ins|
    requires tr.outs[i].st.phase in {Paused, Promoting}
    ensures Topped(tr, j, i, tr.outs[i].st.revision)
    ensures tr.outs[i].st.phase == Paused ==> tr.plans[j].requireApproval
    ensures tr.outs[i].st.phase == Promoting && tr.plans[j].requireApproval ==> ApprovedAt(tr, j, k, i)
    decreases i
  {
    hide Next, Consumes, Resets, PassedTop;
    assert EditedStep(tr, i);
    CoherentRun(tr, i);
    var p, inp := tr.plans[i], tr.ins[i];
    if !Continues(tr.outs[i]) {
      NothingWon(p, inp);
      assert false;
    } else if Consumes(p, inp) {
      ContinuedAttempt(p, inp);
      JudgedAtTop(p, inp);
      j, k := i, i;
    } else {
      ContinuedAttempt(p, inp);
      UnconsumedPhase(p, inp);
      j, k := Topping(tr, i - 1);
      if tr.outs[i].st.phase == Promoting && inp.st.phase == Paused {
        k := i;
      }
    }
  }

  /** However its plan was edited, a promotion follows a passing round on the last rung of
      the plan then in force, within one attempt at that revision, and an approval if that
      plan required one. */
  lemma PromotionFollowsLastRung(tr: Trace, i: int) returns (j: int, k: int)
    requires IsEditedRun(tr) && NeverPromotesUnjudged(tr) && 0 <= i < |tr.ins| && tr.outs[i].action == Promote
    ensures Topped(tr, j, i, tr.outs[i].st.revision)
    ensures tr.plans[j].requireApproval ==> ApprovedAt(tr, j, k, i)
  {
    hide Next, Consumes, PassedTop;
    assert EditedStep(tr, i);
    ActionFitsPhase(tr.plans[i], tr.ins[i]);
    j, k := Topping(tr, i);
  }

  /** Around the loop: what is banked anew has passed the last rung of the plan then in
      force. */
  lemma NewLastGoodPassedLastRung(l: Loop, i: int) returns (j: int, k: int)
    requires EditedLoop(l) && NeverPromotesUnjudged(Projection(l)) && 0 <= i < |l.passes|
    requires l.statuses[i + 1].lastGood != l.statuses[i].lastGood
    ensures Topped(Projection(l), j, i, l.statuses[i + 1].lastGood) && l.passes[j].verdict == Verdict.Pass
    ensures l.passes[j].plan.requireApproval ==> j < k <= i && l.passes[k].approved
  {
    hide Next, MachineInput, NextStatus, Found, PassedTop;
    ProjectionIsEditedRun(l);
    FallbackRun(l, i);
    assert LoopStep(l, i);
    assert Resolved(l.passes[i].plan);
    BankedByPromotion(l.statuses[i], l.passes[i]);
    j, k := PromotionFollowsLastRung(Projection(l), i);
    TopWasRun(l.statuses[j], l.passes[j]);
    if l.passes[j].plan.requireApproval {
      MachineFields(l.statuses[k], l.passes[k]);
    }
  }

  lemma TopWasRun(s: Status, pass: Pass)
    requires PassedTop(pass.plan, MachineInput(Found(s, pass), pass))
    ensures pass.verdict == Verdict.Pass
  {
  }

  // ---- An edit can save rungs --------------------------------------------

  function CutShort(p: Plan): Plan
    requires |p.weights| > 0
  {
    p.(weights := p.weights[..1])
  }

  /** Cutting a ladder to its first rung before the first round promotes after one window,
      where the unedited plan takes one for every rung. */
  lemma EditCanPromoteEarly(p: Plan) returns (tr: Trace)
    requires Resolved(p) && PositiveLadder(p) && !p.requireApproval
    ensures IsEditedRun(tr) && tr.plans == [p, p, CutShort(p)]
    ensures tr.outs[2].action == Promote && tr.outs[2].st.startedAt == At(0)
    ensures tr.ins[2].now == p.initialDelay + p.window
  {
    hide Next;
    var q := CutShort(p);
    var a := Situation(p, 0, 0, FRESH, NoRound, false);
    var b := Situation(p, 0, 0, OnRung(0, NO_TARGET), NoRound, false);
    var c := Situation(q, 0, Warmup(q), Warming(q, 0, 0), Ran(Pass), false);
    StartsAtZero(p);
    SeesPods(p, 0, NO_TARGET, 0);
    PassesRung(q, 0, 0);
    tr := Trace([p, p, q], [a, b, c], [Next(p, a), Next(p, b), Next(q, c)]);
    assert Warming(q, 0, 0) == Warming(p, 0, 0);
    assert EditedStep(tr, 0) && EditedStep(tr, 1) && EditedStep(tr, 2);
  }
}
