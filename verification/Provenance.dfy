/** From metric samples to the rollback target: everything a newly banked revision rests
    on, end to end (internal/analysis/analyzer.go:80-200, internal/canary/state.go:248-821,
    internal/controller/canary.go:252-365, internal/controller/status.go:155-185). */
module Provenance {
  import opened Readings
  import opened Verdicts
  import opened Weights
  import opened CanaryMachine
  import opened CanaryRuns
  import opened Readiness
  import opened AttemptTiming
  import opened AttemptEvidence
  import opened Analysis
  import opened Rollout
  import opened ClosedLoop
  import opened MetricHandshake
  import opened PlanEdits

  /** What a pass asks, and the metric backend as that pass finds it. */
  datatype Measurement = Measurement(req: Request, provider: Provider)

  /** The verdict of every pass is that of its measurement. */
  ghost predicate MeasuredBy(l: Loop, ms: seq<Measurement>)
  {
    |ms| == |l.passes| && forall j :: 0 <= j < |ms| ==> l.passes[j].verdict == RoundOf(ms[j].req, ms[j].provider)
  }

  /** There is enough traffic to judge by, something is checked, and every check has the
      samples it needs and got one finite number within its range. */
  ghost predicate Convincing(m: Measurement)
  {
    && (m.req.minRequestRate <= 0.0 || EnoughTraffic(m.req, m.provider))
    && m.req.metrics != []
    && forall i :: 0 <= i < |m.req.metrics| ==> InOrder(m, m.req.metrics[i])
  }

  predicate InOrder(m: Measurement, c: Metric)
  {
    var a := MainAnswer(m.provider, c);
    CanJudge(m.req, m.provider, c) && IsEvidence(a) && InRange(c, a.value.r)
  }

  lemma PassIsConvincing(m: Measurement)
    ensures RoundOf(m.req, m.provider) == Verdict.Pass <==> Convincing(m)
  {
    hide RoundOf, CheckOf, CanJudge, EnoughTraffic;
    RoundPassesIff(m.req, m.provider);
    forall i | 0 <= i < |m.req.metrics|
      ensures CheckOf(m.req, m.provider, m.req.metrics[i]) == Verdict.Pass <==> InOrder(m, m.req.metrics[i])
    {
      CheckDecidesIff(m.req, m.provider, m.req.metrics[i]);
    }
  }

  /** The round of pass `j` was judged on convincing measurements. Since pass `ready`, at
      least a warm-up and a window before, every pass saw every planned pod of the candidate
      `r` serving, at one rung and capacity and from one Deployment; and since pass `verified`, which proved that
      its metrics are its own, every pass saw one and the same Deployment. */
  ghost predicate Documented(l: Loop, ms: seq<Measurement>, j: int, r: Revision, ready: int, verified: int)
    requires |l.statuses| == |l.passes| + 1 && |ms| == |l.passes|
  {
    var tr := Projection(l);
    && 0 <= j < |l.passes| && Convincing(ms[j])
    && ServedThroughout(tr, ready, j, r)
    && l.passes[ready].now + l.passes[j].plan.initialDelay + l.passes[j].plan.window <= l.passes[j].now
    && VerifiedSince(l, verified, j + 1, l.passes[j].candidate.uid)
  }

  lemma PassedRoundIsDocumented(l: Loop, ms: seq<Measurement>, j: int) returns (ready: int, verified: int)
    requires EditedLoop(l) && MeasuredBy(l, ms) && 0 <= j < |l.passes|
    requires Consumes(l.passes[j].plan, Projection(l).ins[j]) && Projection(l).ins[j].round == Ran(Verdict.Pass)
    ensures Documented(l, ms, j, Projection(l).ins[j].st.revision, ready, verified)
  {
    hide Next, MachineInput, NextStatus, Found, Consumes, Convincing, RunsRound;
    ProjectionIsEditedRun(l);
    RoundWasRun(l.statuses[j], l.passes[j]);
    PassIsConvincing(ms[j]);
    ready := EvidenceIsFresh(Projection(l), j);
    MachineFields(l.statuses[ready], l.passes[ready]);
    MachineFields(l.statuses[j], l.passes[j]);
    verified := RoundsRestOnThisDeployment(l, j);
  }

  lemma RoundWasRun(s: Status, pass: Pass)
    requires MachineInput(Found(s, pass), pass).round.Ran?
    ensures RunsRound(Found(s, pass), pass) && MachineInput(Found(s, pass), pass).round.verdict == pass.verdict
  {
  }

  /** Whatever is banked anew serves on every desired replica; at every rung of one attempt
      it passed a documented round; and it was approved if the plan asks for that. */
  lemma LastGoodIsDocumented(p: Plan, l: Loop, ms: seq<Measurement>, i: int)
    returns (a: Attempt, ready: seq<int>, verified: seq<int>)
    requires CanaryLoop(p, l) && MeasuredBy(l, ms) && p.onInconclusive != PromoteOn && 0 <= i < |l.passes|
    requires l.statuses[i + 1].lastGood != l.statuses[i].lastGood
    ensures var r := l.statuses[i + 1].lastGood;
      && Climbed(p, Projection(l), a, r, i) && |a.rungs| == |ready| == |verified| == |p.weights|
      && (forall k :: 0 <= k < |a.rungs| ==> Documented(l, ms, a.rungs[k], r, ready[k], verified[k]))
      && (p.requireApproval ==> 0 <= a.approval <= i && l.passes[a.approval].approved)
      && l.passes[i].target == r && Serving(l.passes[i])
  {
    hide Next, MachineInput, NextStatus, Found, PassedRung, Documented, Serving;
    a := NewLastGoodIsEarned(p, l, i);
    ServesWhatIsBanked(l, i);
    ready, verified := RungsAreDocumented(p, l, ms, a, l.statuses[i + 1].lastGood, i);
  }

  lemma RungsAreDocumented(p: Plan, l: Loop, ms: seq<Measurement>, a: Attempt, r: Revision, i: int)
    returns (ready: seq<int>, verified: seq<int>)
    requires CanaryLoop(p, l) && MeasuredBy(l, ms) && 0 <= i < |l.passes| && Climbed(p, Projection(l), a, r, i)
    ensures |ready| == |verified| == |a.rungs|
    ensures forall k :: 0 <= k < |a.rungs| ==> Documented(l, ms, a.rungs[k], r, ready[k], verified[k])
  {
    hide RoundOf, Climbed, Projection, Documented;
    ready, verified := [], [];
    for k := 0 to |a.rungs|
      invariant |ready| == |verified| == k
      invariant forall m :: 0 <= m < k ==> Documented(l, ms, a.rungs[m], r, ready[m], verified[m])
    {
      var since, proof := RungIsDocumented(p, l, ms, a, r, i, k);
      ready, verified := ready + [since], verified + [proof];
    }
  }

  lemma RungIsDocumented(p: Plan, l: Loop, ms: seq<Measurement>, a: Attempt, r: Revision, i: int, k: int)
    returns (ready: int, verified: int)
    requires CanaryLoop(p, l) && MeasuredBy(l, ms) && 0 <= i < |l.passes| && Climbed(p, Projection(l), a, r, i)
    requires 0 <= k < |a.rungs|
    ensures Documented(l, ms, a.rungs[k], r, ready, verified)
  {
    hide Next, MachineInput, NextStatus, Found, PassedRung, Documented;
    var j := a.rungs[k];
    RungWasJudged(p, Projection(l).ins[j], k, r);
    assert l.passes[j].plan == p;
    ready, verified := PassedRoundIsDocumented(l, ms, j);
  }

  lemma RungWasJudged(p: Plan, inp: Input, k: int, r: Revision)
    requires PassedRung(p, inp, k, r)
    ensures Consumes(p, inp) && inp.round == Ran(Verdict.Pass) && inp.st.revision == r
  {
  }

  lemma ServesWhatIsBanked(l: Loop, i: int)
    requires EditedLoop(l) && 0 <= i < |l.passes| && l.statuses[i + 1].lastGood != l.statuses[i].lastGood
    ensures l.passes[i].target == l.statuses[i + 1].lastGood && Serving(l.passes[i])
  {
    hide NextStatus, Serving;
    FallbackRun(l, i);
    assert LoopStep(l, i);
    assert Resolved(l.passes[i].plan);
    BankedIsServing(l.statuses[i], l.passes[i]);
  }

  /** However the plan was edited, it passed a documented round at the last rung of the plan
      then in force. */
  lemma LastGoodIsDocumentedUnderEdits(l: Loop, ms: seq<Measurement>, i: int)
    returns (j: int, k: int, ready: int, verified: int)
    requires EditedLoop(l) && MeasuredBy(l, ms) && NeverPromotesUnjudged(Projection(l)) && 0 <= i < |l.passes|
    requires l.statuses[i + 1].lastGood != l.statuses[i].lastGood
    ensures var r := l.statuses[i + 1].lastGood;
      && Topped(Projection(l), j, i, r) && Documented(l, ms, j, r, ready, verified)
      && (l.passes[j].plan.requireApproval ==> j < k <= i && l.passes[k].approved)
      && l.passes[i].target == r && Serving(l.passes[i])
  {
    hide Next, MachineInput, NextStatus, Found, PassedTop, Documented, Serving;
    j, k := NewLastGoodPassedLastRung(l, i);
    TopWasJudged(l.passes[j].plan, Projection(l).ins[j]);
    ready, verified := PassedRoundIsDocumented(l, ms, j);
    ServesWhatIsBanked(l, i);
  }

  lemma TopWasJudged(p: Plan, inp: Input)
    requires PassedTop(p, inp)
    ensures Consumes(p, inp) && inp.round == Ran(Verdict.Pass)
  {
  }
}
