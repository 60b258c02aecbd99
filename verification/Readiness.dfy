/** What counts as ready and as measured, told from the Deployment's own counters and the
    plan's own durations (internal/canary/state.go:248-284, 356-370). Nothing here is
    phrased in terms of the state machine's helper functions. */
module Readiness {
  import opened Verdicts
  import opened Weights
  import opened CanaryMachine
  import opened CanaryRuns

  /** The rung's weight. A ladder that was cut short under a candidate keeps it on its last
      rung. */
  function RungWeight(p: Plan, step: int): int
    requires |p.weights| > 0 && step >= 0
  {
    if step < |p.weights| then p.weights[step] else p.weights[|p.weights| - 1]
  }

  /** Every pod that the rung plans for runs the candidate's current generation and
      serves, and there are no others. */
  predicate AllServe(p: Plan, inp: Input)
    requires |p.weights| > 0 && inp.st.step >= 0
  {
    var d, planned := inp.deployment, Split(inp.total, RungWeight(p, inp.st.step)).canary;
    && planned > 0
    && d.revision == inp.st.revision && d.uid != NoUid
    && d.generation > 0 && d.observedGeneration >= d.generation
    && d.replicas == planned && d.updated == planned && d.ready == planned && d.available == planned
  }

  /** The pass sees what the clock was started for: the same rung, weight and capacity, and
      the same incarnation of the same Deployment. */
  predicate SameSight(p: Plan, inp: Input)
    requires |p.weights| > 0 && inp.st.step >= 0
  {
    var seen, d, weight := inp.st.readiness, inp.deployment, RungWeight(p, inp.st.step);
    && seen.step == inp.st.step && seen.weight == weight && seen.total == inp.total
    && seen.canary == Split(inp.total, weight).canary
    && seen.generation == d.generation && seen.uid == d.uid
  }

  predicate AtTarget(inp: Input)
  {
    inp.st.phase in {Waiting, Progressing, Paused} && inp.st.revision == inp.target && inp.st.step >= 0
  }

  /** After observing, the evidence clock runs exactly if everything serves: from before if
      it ran for the same sight, from now otherwise. */
  lemma ClockRunsIff(p: Plan, inp: Input)
    requires Resolved(p) && AtTarget(inp)
    ensures Observe(p, inp).st.availableSince ==
      if !AllServe(p, inp) then Never
      else if SameSight(p, inp) && inp.st.availableSince != Never then inp.st.availableSince
      else At(inp.now)
  {
  }

  /** It is bound to what this pass sees; and what was collected for another sight, or for a
      candidate that does not serve, is given up. */
  lemma SightIsBound(p: Plan, inp: Input)
    requires Resolved(p) && AtTarget(inp)
    ensures var o, st := Observe(p, inp), inp.st;
      && SameSight(p, inp.(st := o.st))
      && (if SameSight(p, inp) && AllServe(p, inp) then
            o.st.phase == st.phase && o.st.lastAnalysis == st.lastAnalysis && o.st.counters == st.counters
            && o.round == inp.round
          else
            && o.st.phase == Waiting && o.st.lastAnalysis == Never && o.round == NoRound
            && o.st.counters == Counters(st.counters.failed, 0, 0))
  {
    hide Split, RealizedWeight;
    SameRung(p, inp);
  }

  /** The metric handshake holds for the Deployment it was made with. */
  lemma HandshakeIsBound(p: Plan, inp: Input)
    requires AtTarget(inp)
    ensures Observe(p, inp).st.scopeReady <==>
              inp.st.scopeReady && inp.st.readiness.uid in {NoUid, inp.deployment.uid}
  {
    hide Split, RealizedWeight, FullyReady;
  }

  /** A round supplied on this pass is one to go by: the candidate has served for the whole
      warm-up and window on this rung, and the interval since the last round is over. */
  predicate Measurable(p: Plan, inp: Input)
    requires |p.weights| > 0 && inp.st.step >= 0
  {
    var st := inp.st;
    && st.phase in {Waiting, Progressing} && st.revision == inp.target && !inp.aborted && st.startedAt != Never
    && AllServe(p, inp) && SameSight(p, inp)
    && st.availableSince != Never && inp.now >= st.availableSince.sec + p.initialDelay + p.window
    && (st.lastAnalysis != Never ==> inp.now >= st.lastAnalysis.sec + p.interval)
  }

  lemma ConsumedIff(p: Plan, inp: Input)
    requires Resolved(p) && inp.st.step >= 0
    ensures Consumes(p, inp) <==> inp.round.Ran? && Measurable(p, inp)
  {
    hide Split, RealizedWeight;
    if AtTarget(inp) {
      hide Observe, Resets, FullyReady, TargetOf;
      ClockRunsIff(p, inp);
      SightIsBound(p, inp);
      ObserveKeeps(p, inp);
      ObserveKeepsIdentity(p, inp);
      SameRung(p, inp);
    }
  }

  lemma SameRung(p: Plan, inp: Input)
    requires |p.weights| > 0 && inp.st.step >= 0
    ensures CountsAt(p, inp, inp.st.step) == Split(inp.total, RungWeight(p, inp.st.step))
    ensures WeightAt(p, inp.st.step) == RungWeight(p, inp.st.step)
  {
  }

  /** So a failing round costs one of the failure budget exactly then. */
  lemma FailureCountsIff(p: Plan, inp: Input)
    requires Resolved(p) && Coherent(inp.st) && inp.st.step >= 0 && inp.round == Ran(Fail)
    ensures Next(p, inp).st.counters.failed == inp.st.counters.failed + 1 <==> Measurable(p, inp)
  {
    hide Next, Consumes, Measurable;
    ConsumedIff(p, inp);
    if Consumes(p, inp) {
      ConsumedRound(p, inp);
      ContinuedAttempt(p, inp);
    } else if Continues(Next(p, inp)) {
      ContinuedAttempt(p, inp);
    } else {
      FreshOrKept(p, inp);
    }
  }

  lemma FreshOrKept(p: Plan, inp: Input)
    requires Resolved(p) && !Continues(Next(p, inp))
    ensures Next(p, inp).st.counters.failed <= inp.st.counters.failed
  {
    hide Split, RealizedWeight, Analyse;
    AnalysisContinues(p, Observe(p, inp));
  }

  /** From pass j to pass i every pod of `r` served, under one and the same sight. */
  ghost predicate ServedThroughout(tr: Trace, j: int, i: int, r: Revision)
  {
    && 0 <= j <= i < |tr.ins| == |tr.plans|
    && forall k :: j <= k <= i ==> ServedAt(tr.plans[k], tr.ins[k], tr.ins[i], r)
  }

  predicate ServedAt(p: Plan, inp: Input, last: Input, r: Revision)
  {
    && |p.weights| > 0 && inp.st.step >= 0 && AllServe(p, inp)
    && inp.st.revision == inp.target == r && inp.st.step == last.st.step && inp.total == last.total
    && inp.deployment.generation == last.deployment.generation && inp.deployment.uid == last.deployment.uid
  }
}
