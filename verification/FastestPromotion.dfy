/** The timing bounds are tight: unless the deadline rules it out, a ladder of n rungs
    can promote exactly n warm-ups and windows after its start. */
module FastestPromotion {
  import opened Verdicts
  import opened Weights
  import opened CanaryMachine
  import opened CanaryRuns
  import opened AttemptBudgets
  import opened AttemptTiming

  const OLD := Rev(0)
  const NEW := Rev(1)

  /** A ladder whose every rung asks for some traffic, as StepLadder's do. */
  ghost predicate PositiveLadder(p: Plan) { forall k :: 0 <= k < |p.weights| ==> p.weights[k] > 0 }

  function PodsAt(p: Plan, k: int): int { Split(2, WeightAt(p, k)).canary }

  /** The candidate with every planned pod of rung k serving. */
  function ReadyAt(p: Plan, k: int): Deployment
  {
    var c := PodsAt(p, k);
    Deployment(Uid(1), NEW, 1, 1, c, c, c, c)
  }

  function ReadinessAt(p: Plan, k: int): ReadinessTarget
  {
    ReadinessTarget(k, WeightAt(p, k), 2, PodsAt(p, k), 1, Uid(1))
  }

  function Situation(p: Plan, k: int, now: int, st: State, round: MaybeRound, approved: bool): Input
  {
    Input(now, st, NEW, OLD, 2, ReadyAt(p, k), round, approved, false)
  }

  /** On rung k, before its pods were seen. */
  function OnRung(k: int, r: ReadinessTarget): State
  {
    FRESH.(phase := Waiting, revision := NEW, stable := OLD, step := k, readiness := r, startedAt := At(0))
  }

  /** On rung k, its pods ready since `since`. */
  function Warming(p: Plan, k: int, since: int): State
  {
    OnRung(k, ReadinessAt(p, k)).(phase := Progressing, availableSince := At(since))
  }

  lemma StartsAtZero(p: Plan)
    requires Resolved(p) && PositiveLadder(p)
    ensures var out := Next(p, Situation(p, 0, 0, FRESH, NoRound, false));
      out.action == Start && out.st == OnRung(0, NO_TARGET)
  {
  }

  lemma SeesPods(p: Plan, k: int, r: ReadinessTarget, now: int)
    requires Resolved(p) && PositiveLadder(p) && 0 <= k < |p.weights|
    requires p.progressDeadline <= 0 || now < p.progressDeadline
    ensures var inp := Situation(p, k, now, OnRung(k, r), NoRound, false);
      Next(p, inp).st == Warming(p, k, now) && Next(p, inp).action != Start
  {
    hide Split, RealizedWeight, Judge;
    assert Split(2, WeightAt(p, k)).canary >= 1;
  }

  lemma InTime(p: Plan, k: int)
    requires Resolved(p) && !Hopeless(p) && 0 <= k < |p.weights|
    ensures p.progressDeadline <= 0 || k * Warmup(p) < p.progressDeadline
  {
    ScaleMonotone(k, |p.weights| - 1, Warmup(p));
  }

  /** One warm-up and window later the rung passes. */
  lemma PassesRung(p: Plan, k: int, since: int)
    requires Resolved(p) && PositiveLadder(p) && 0 <= k < |p.weights|
    ensures var out := Next(p, Situation(p, k, since + Warmup(p), Warming(p, k, since), Ran(Pass), false));
      if k < |p.weights| - 1 then out.st == OnRung(k + 1, ReadinessAt(p, k)) && out.action != Start
      else if p.requireApproval then out.st == Passed(p, k, since)
      else out.action == Promote && out.st.startedAt == At(0)
  {
  }

  /** Waiting for approval. */
  function Passed(p: Plan, k: int, since: int): State
  {
    Warming(p, k, since).(phase := Paused, lastAnalysis := At(since + Warmup(p)))
  }

  lemma ApprovalPromotes(p: Plan, k: int, since: int)
    requires Resolved(p) && PositiveLadder(p) && k == |p.weights| - 1
    ensures var out := Next(p, Situation(p, k, since + Warmup(p), Passed(p, k, since), NoRound, true));
      out.action == Promote && out.st.startedAt == At(0)
  {
  }

  function Then(p: Plan, tr: Trace, inp: Input): Trace
  {
    Trace(tr.plans + [p], tr.ins + [inp], tr.outs + [Next(p, inp)])
  }

  /** A run goes on with any pass that starts where it left off. */
  lemma RunGoesOn(p: Plan, tr: Trace, inp: Input)
    requires IsRun(p, tr) && |tr.ins| > 0
    requires inp.st == tr.outs[|tr.outs| - 1].st && tr.ins[|tr.ins| - 1].now <= inp.now
    ensures IsRun(p, Then(p, tr, inp))
  {
    hide Next;
    var tr' := Then(p, tr, inp);
    forall i | 0 <= i < |tr'.ins|
      ensures Step(p, tr', i)
    {
      if i < |tr.ins| {
        assert Step(p, tr, i);
      }
    }
  }

  /** The run is one attempt from its first pass to its last, and still undecided. */
  ghost predicate OneLongAttempt(p: Plan, tr: Trace)
  {
    |tr.ins| > 0 && OpenAttempt(p, tr, 0, |tr.ins| - 1)
  }

  lemma AttemptGoesOn(p: Plan, tr: Trace, inp: Input)
    requires OneLongAttempt(p, tr) && Continues(Next(p, inp)) && InFlight(Next(p, inp).st)
    requires inp.st == tr.outs[|tr.outs| - 1].st && tr.ins[|tr.ins| - 1].now <= inp.now
    ensures OneLongAttempt(p, Then(p, tr, inp))
  {
    hide Next;
    RunGoesOn(p, tr, inp);
  }

  /** A run that reaches rung k after k warm-ups and windows. */
  lemma {:induction false} Reaches(p: Plan, k: int) returns (tr: Trace, r: ReadinessTarget)
    requires Resolved(p) && PositiveLadder(p) && !Hopeless(p) && 0 <= k < |p.weights|
    ensures OneLongAttempt(p, tr)
    ensures tr.outs[|tr.outs| - 1].st == OnRung(k, r) && tr.ins[|tr.ins| - 1].now == k * Warmup(p)
    decreases k
  {
    hide Next, Hopeless;
    if k == 0 {
      var inp := Situation(p, 0, 0, FRESH, NoRound, false);
      StartsAtZero(p);
      tr, r := Trace([p], [inp], [Next(p, inp)]), NO_TARGET;
      assert Step(p, tr, 0);
    } else {
      var w := Warmup(p);
      var before, r0 := Reaches(p, k - 1);
      var since := (k - 1) * w;
      var a := Situation(p, k - 1, since, OnRung(k - 1, r0), NoRound, false);
      var b := Situation(p, k - 1, since + w, Warming(p, k - 1, since), Ran(Pass), false);
      InTime(p, k - 1);
      SeesPods(p, k - 1, r0, since);
      AttemptGoesOn(p, before, a);
      PassesRung(p, k - 1, since);
      AttemptGoesOn(p, Then(p, before, a), b);
      tr, r := Then(p, Then(p, before, a), b), ReadinessAt(p, k - 1);
      assert since + w == k * w;
    }
  }

  /** The fastest promotion takes exactly n warm-ups and windows. */
  lemma FastestPromotionRun(p: Plan) returns (tr: Trace)
    requires Resolved(p) && PositiveLadder(p) && !Hopeless(p)
    ensures IsRun(p, tr) && |tr.ins| > 0
    ensures var last := |tr.ins| - 1;
      && tr.outs[last].action == Promote && tr.outs[last].st.startedAt == At(0)
      && tr.ins[last].now == |p.weights| * (p.initialDelay + p.window)
  {
    hide Next, Hopeless;
    var k, w := |p.weights| - 1, Warmup(p);
    var before, r := Reaches(p, k);
    var since := k * w;
    var a := Situation(p, k, since, OnRung(k, r), NoRound, false);
    var b := Situation(p, k, since + w, Warming(p, k, since), Ran(Pass), false);
    InTime(p, k);
    SeesPods(p, k, r, since);
    RunGoesOn(p, before, a);
    PassesRung(p, k, since);
    RunGoesOn(p, Then(p, before, a), b);
    tr := Then(p, Then(p, before, a), b);
    assert since + w == |p.weights| * w;
    if p.requireApproval {
      var c := Situation(p, k, since + w, Passed(p, k, since), NoRound, true);
      ApprovalPromotes(p, k, since);
      RunGoesOn(p, tr, c);
      tr := Then(p, tr, c);
    }
  }

  ghost predicate PromotesAt(p: Plan, tr: Trace, i: int)
  {
    IsRun(p, tr) && 0 <= i < |tr.ins| && tr.outs[i].action == Promote
  }

  /** A plan that never promotes unjudged can promote at all exactly when its deadline
      leaves room for every rung but the last. */
  lemma PromotionIsPossibleIff(p: Plan)
    requires Resolved(p) && PositiveLadder(p) && p.onInconclusive != PromoteOn
    ensures (exists tr: Trace, i: int :: PromotesAt(p, tr, i)) <==> !Hopeless(p)
  {
    hide Next, Hopeless;
    if !Hopeless(p) {
      var tr := FastestPromotionRun(p);
      assert PromotesAt(p, tr, |tr.ins| - 1);
    } else {
      forall tr: Trace, i: int | IsRun(p, tr) && 0 <= i < |tr.ins|
        ensures !PromotesAt(p, tr, i)
      {
        HopelessLadderNeverPromotes(p, tr, i);
      }
    }
  }
}
