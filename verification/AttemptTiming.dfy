/** The clocks of an attempt over whole runs: fresh evidence, exact wake-ups, the
    shortest possible promotion and the deadline that rules one out
    (internal/canary/state.go:248-284, 356-370, 700-726, 803-806, 906-918). */
module AttemptTiming {
  import opened Verdicts
  import opened Weights
  import opened CanaryMachine
  import opened CanaryRuns
  import opened Readiness

  // ---- Evidence freshness ------------------------------------------------

  /** This pass saw every planned replica of revision `r` serving, under exactly the
      readiness target `target`. */
  predicate ReadyFor(p: Plan, inp: Input, target: ReadinessTarget, r: Revision)
  {
    Observes(inp) && inp.st.revision == r && TargetOf(p, inp) == target && FullyReady(p, inp)
  }

  /** Passes j .. i saw one unbroken stretch of readiness. */
  ghost predicate Stretch(tr: Trace, j: int, i: int, target: ReadinessTarget, r: Revision)
  {
    && 0 <= j <= i < |tr.ins| == |tr.plans|
    && forall k :: j <= k <= i ==> ReadyFor(tr.plans[k], tr.ins[k], target, r)
  }

  /** A running evidence clock was started by this pass or carried into it. */
  lemma ClockStep(p: Plan, inp: Input)
    requires IsActive(Observe(p, inp).st.phase) && Observes(inp) && Observe(p, inp).st.availableSince != Never
    requires inp.st.availableSince == Never ==> inp.st.lastAnalysis == Never
    ensures var o := Observe(p, inp);
      || (ReadyFor(p, inp, TargetOf(p, inp), inp.st.revision) && o.st.availableSince == At(inp.now))
      || (!Resets(p, inp) && o.st.availableSince == inp.st.availableSince)
    ensures Observe(p, inp).st.readiness == TargetOf(p, inp)
    ensures ReadyFor(p, inp, TargetOf(p, inp), inp.st.revision)
  {
  }

  lemma RunningClockObserved(p: Plan, inp: Input)
    requires Resolved(p) && Coherent(inp.st)
    requires IsActive(Next(p, inp).st.phase) && Next(p, inp).st.availableSince != Never
    ensures Observes(inp)
    ensures var o, out := Observe(p, inp), Next(p, inp);
      out.st.availableSince == o.st.availableSince && out.st.readiness == o.st.readiness
      && out.st.revision == o.st.revision && IsActive(o.st.phase)
  {
    hide Split, RealizedWeight, Analyse, Judge;
    if Consumes(p, inp) {
      ConsumedRound(p, inp);
      RunningClockJudged(p, inp);
    } else if Continues(Next(p, inp)) {
      UnconsumedPass(p, inp);
      assert Observes(inp) by { ActiveIsObserved(p, inp); }
    } else {
      assert false by { NoAttemptNoClock(p, inp); }
    }
  }

  lemma RunningClockJudged(p: Plan, inp: Input)
    requires Resolved(p) && Consumes(p, inp)
    requires IsActive(Next(p, inp).st.phase) && Next(p, inp).st.availableSince != Never
    ensures var o, out := Observe(p, inp), Next(p, inp);
      out.st.availableSince == o.st.availableSince && out.st.readiness == o.st.readiness
      && out.st.revision == o.st.revision
  {
  }

  lemma ActiveIsObserved(p: Plan, inp: Input)
    requires Continues(Next(p, inp)) && IsActive(Next(p, inp).st.phase)
    ensures Observes(inp)
  {
    hide Split, RealizedWeight, Analyse;
  }

  lemma NoAttemptNoClock(p: Plan, inp: Input)
    requires Resolved(p) && Coherent(inp.st)
    requires IsActive(Next(p, inp).st.phase) && !Continues(Next(p, inp))
    ensures Next(p, inp).st.availableSince == Never
  {
    hide Split, RealizedWeight, Analyse;
    AnalysisContinues(p, Observe(p, inp));
  }

  /** The pass that started the evidence clock which is running after pass `i`. */
  lemma {:induction false} ClockStart(tr: Trace, i: int) returns (j: int)
    requires IsEditedRun(tr) && 0 <= i < |tr.ins|
    requires IsActive(tr.outs[i].st.phase) && tr.outs[i].st.availableSince != Never
    ensures Stretch(tr, j, i, tr.outs[i].st.readiness, tr.outs[i].st.revision)
    ensures tr.ins[j].now == tr.outs[i].st.availableSince.sec
    decreases i
  {
    hide Split, RealizedWeight, Observe, Decide, FullyReady, TargetOf, Resets;
    CoherentRun(tr, i);
    assert EditedStep(tr, i);
    var p, inp, out := tr.plans[i], tr.ins[i], tr.outs[i];
    RunningClockObserved(p, inp);
    ClockStep(p, inp);
    ObserveKeepsRevision(p, inp);
    assert ReadyFor(p, tr.ins[i], out.st.readiness, out.st.revision);
    if out.st.availableSince == At(inp.now) {
      j := i;
    } else {
      ObservedWithoutReset(p, inp);
      j := ClockStart(tr, i - 1);
      assert out.st.readiness == tr.outs[i - 1].st.readiness;
      assert out.st.revision == tr.outs[i - 1].st.revision;
    }
  }

  lemma ObserveKeepsRevision(p: Plan, inp: Input)
    ensures Observe(p, inp).st.revision == inp.st.revision
  {
  }

  lemma ObservedWithoutReset(p: Plan, inp: Input)
    requires !Resets(p, inp) && Observes(inp)
    ensures Observe(p, inp).st.readiness == inp.st.readiness && Observe(p, inp).st.revision == inp.st.revision
  {
  }

  /** Whenever a round is consumed, every pass for at least the warm-up and the window of
      the plan then in force saw every planned pod of the same candidate serving, on the
      same rung, at the same capacity, in the same Deployment, however the plan was edited
      meanwhile. */
  lemma EvidenceIsFresh(tr: Trace, i: int) returns (j: int)
    requires IsEditedRun(tr) && 0 <= i < |tr.ins| && Consumes(tr.plans[i], tr.ins[i])
    ensures ServedThroughout(tr, j, i, tr.ins[i].st.revision)
    ensures tr.ins[j].now + tr.plans[i].initialDelay + tr.plans[i].window <= tr.ins[i].now
  {
    hide Split, RealizedWeight, Decide, FullyReady, TargetOf, ServedAt;
    CoherentRun(tr, i);
    assert EditedStep(tr, i);
    var p, inp := tr.plans[i], tr.ins[i];
    ConsumedRound(p, inp);
    ClockStep(p, inp);
    assert i > 0;
    j := ClockStart(tr, i - 1);
    forall k | j <= k <= i
      ensures ServedAt(tr.plans[k], tr.ins[k], inp, inp.st.revision)
    {
      assert EditedStep(tr, k);
      CoherentRun(tr, k);
      assert ReadyFor(tr.plans[k], tr.ins[k], TargetOf(p, inp), inp.st.revision);
      ReadyMeansServing(tr.plans[k], tr.ins[k], p, inp);
    }
  }

  lemma ReadyMeansServing(p: Plan, inp: Input, q: Plan, last: Input)
    requires Resolved(p) && Coherent(inp.st) && ReadyFor(p, inp, TargetOf(q, last), last.st.revision)
    ensures ServedAt(p, inp, last, last.st.revision)
  {
  }

  // ---- Wake-ups ----------------------------------------------------------

  lemma WaitingAnalysis(p: Plan, o: Input)
    requires Resolved(p) && o.st.phase in {Waiting, Progressing} && o.st.startedAt != Never && Sound(p, o.st, o.now)
    requires Analyse(p, o).action == Wait && Analyse(p, o).st.startedAt != Never
    ensures var out := Analyse(p, o);
      if out.st.availableSince != Never then
        !DueForAnalysis(o.now, p, out.st) ==>
          && out.requeueAfter > 0 && (forall t :: DueForAnalysis(t, p, out.st) <==> t >= o.now + out.requeueAfter)
          && o.now + out.requeueAfter ==
               if out.st.lastAnalysis == Never then out.st.availableSince.sec + p.initialDelay + p.window
               else out.st.lastAnalysis.sec + p.interval
      else
        p.progressDeadline > 0 ==> o.now < out.st.startedAt.sec + p.progressDeadline
    ensures var out := Analyse(p, o);
      p.progressDeadline > 0 && out.st.lastAnalysis == Never && Unmeasured(p, out.st, o.now) ==>
        o.now < out.st.startedAt.sec + p.progressDeadline
  {
  }

  lemma WaitingStep(p: Plan, inp: Input)
    requires Resolved(p) && Sound(p, inp.st, inp.now)
    requires Next(p, inp).action == Wait && Next(p, inp).st.startedAt != Never
    ensures var o := Observe(p, inp);
      && o.st.phase in {Waiting, Progressing} && o.st.startedAt != Never && Sound(p, o.st, inp.now)
      && o.now == inp.now && Next(p, inp) == Analyse(p, o)
  {
    hide Split, RealizedWeight, Analyse;
    SoundObserve(p, inp, inp.now);
    AnalysisContinues(p, Observe(p, inp));
  }

  /** With the evidence clock running and no round due, the requested wake-up is the
      first instant at which one is due. */
  lemma WakeUpIsExact(p: Plan, tr: Trace, i: int)
    requires Resolved(p) && IsRun(p, tr) && 0 <= i < |tr.ins|
    requires tr.outs[i].action == Wait && tr.outs[i].st.availableSince != Never
    requires !DueForAnalysis(tr.ins[i].now, p, tr.outs[i].st)
    ensures tr.outs[i].requeueAfter > 0
    ensures forall t :: DueForAnalysis(t, p, tr.outs[i].st) <==> t >= tr.ins[i].now + tr.outs[i].requeueAfter
    ensures var st := tr.outs[i].st;
      tr.ins[i].now + tr.outs[i].requeueAfter ==
        if st.lastAnalysis == Never then st.availableSince.sec + p.initialDelay + p.window
        else st.lastAnalysis.sec + p.interval
  {
    hide Split, RealizedWeight, Analyse, Observe, Decide;
    SoundRun(p, tr, i);
    assert Step(p, tr, i);
    ActionFitsPhase(p, tr.ins[i]);
    WaitingStep(p, tr.ins[i]);
    WaitingAnalysis(p, Observe(p, tr.ins[i]));
  }

  /** A started candidate that is not ready, or is still warming up for its first round on
      a rung, is never waited for past its deadline. */
  lemma UnmeasuredCandidateMeetsDeadline(p: Plan, tr: Trace, i: int)
    requires Resolved(p) && p.progressDeadline > 0 && IsRun(p, tr) && 0 <= i < |tr.ins|
    requires tr.outs[i].action == Wait && tr.outs[i].st.startedAt != Never
    requires Unmeasured(p, tr.outs[i].st, tr.ins[i].now)
    ensures tr.ins[i].now < tr.outs[i].st.startedAt.sec + p.progressDeadline
  {
    hide Split, RealizedWeight, Analyse, Observe, Decide;
    SoundRun(p, tr, i);
    assert Step(p, tr, i);
    ActionFitsPhase(p, tr.ins[i]);
    WaitingStep(p, tr.ins[i]);
    WaitingAnalysis(p, Observe(p, tr.ins[i]));
  }

  // ---- How long a promotion takes, at least ------------------------------

  /** Rungs whose warm-up and window lie behind this position. */
  function RungsMeasured(p: Plan, st: State): int
  {
    if st.phase == Promoting || st.phase == Paused then |p.weights| else st.step
  }

  predicate Elapsed(p: Plan, st: State, t: int)
  {
    st.startedAt != Never && (IsActive(st.phase) || st.phase == Promoting) ==>
      && t >= st.startedAt.sec + RungsMeasured(p, st) * Warmup(p)
      && (IsActive(st.phase) && st.availableSince != Never ==>
            st.availableSince.sec >= st.startedAt.sec + st.step * Warmup(p))
  }

  lemma ElapsedHandover(p: Plan, s: State, t: State, time: int, time': int)
    requires Elapsed(p, s, time) && Handover(s, t) && time <= time'
    ensures Elapsed(p, t, time')
  {
  }

  lemma ElapsedStep(p: Plan, inp: Input)
    requires Resolved(p) && p.onInconclusive != PromoteOn
    requires Sound(p, inp.st, inp.now) && Elapsed(p, inp.st, inp.now)
    ensures Elapsed(p, Next(p, inp).st, inp.now)
  {
    hide Split, RealizedWeight, Observe, Decide;
    if !Continues(Next(p, inp)) {
      if IsActive(Next(p, inp).st.phase) {
        NoAttemptNoClock(p, inp);
      }
      NotContinued(p, inp);
    } else if Consumes(p, inp) {
      ElapsedJudged(p, inp);
    } else {
      ElapsedUnconsumed(p, inp);
    }
  }

  lemma NotContinued(p: Plan, inp: Input)
    requires Resolved(p) && Sound(p, inp.st, inp.now) && !Continues(Next(p, inp))
    ensures var st := Next(p, inp).st;
      st.startedAt == Never || (st.startedAt == At(inp.now) && st.step == 0 && st.phase == Waiting)
    ensures Next(p, inp).action in {Start, Wait, Nothing, Rollback}
  {
    hide Split, RealizedWeight, Analyse;
    AnalysisContinues(p, Observe(p, inp));
  }

  lemma ElapsedJudged(p: Plan, inp: Input)
    requires Resolved(p) && p.onInconclusive != PromoteOn
    requires Sound(p, inp.st, inp.now) && Elapsed(p, inp.st, inp.now) && Consumes(p, inp)
    ensures Elapsed(p, Next(p, inp).st, inp.now)
  {
    hide Split, RealizedWeight, Decide, FullyReady, TargetOf;
    ConsumedRound(p, inp);
    var st, w := inp.st, Warmup(p);
    assert st.availableSince != Never && inp.now >= st.availableSince.sec + w;
    assert (st.step + 1) * w == st.step * w + w;
    JudgedPosition(p, inp);
  }

  /** After a consumed round the attempt is on the same rung, one rung up, or done
      with the last rung. */
  lemma JudgedPosition(p: Plan, inp: Input)
    requires Resolved(p) && Sound(p, inp.st, inp.now) && Consumes(p, inp)
    ensures var st, out := inp.st, Next(p, inp);
      && out.st.startedAt == st.startedAt
      && match out.action {
        case Wait => out.st.phase == Progressing && out.st.step == st.step && out.st.availableSince == st.availableSince
        case Advance => inp.round == Ran(Pass) && st.step < |p.weights| - 1 && out.st.phase == Waiting
            && out.st.step == st.step + 1 && out.st.availableSince == Never
        case Pause => inp.round == Ran(Pass) && p.requireApproval && out.st.phase == Paused
            && st.step == out.st.step == |p.weights| - 1 && out.st.availableSince == st.availableSince
        case Promote => out.st.phase == Promoting
            && (p.onInconclusive == PromoteOn
                || (inp.round == Ran(Pass) && !p.requireApproval && st.step == |p.weights| - 1))
        case Rollback => out.st.phase == RollingBack
        case _ => false
      }
  {
    hide Split, RealizedWeight, Decide, FullyReady, TargetOf;
    ConsumedRound(p, inp);
  }

  lemma ElapsedUnconsumed(p: Plan, inp: Input)
    requires Resolved(p) && Sound(p, inp.st, inp.now) && Elapsed(p, inp.st, inp.now)
    requires !Consumes(p, inp) && Continues(Next(p, inp))
    ensures Elapsed(p, Next(p, inp).st, inp.now)
  {
    hide Split, RealizedWeight, Decide;
    UnconsumedPass(p, inp);
    UnconsumedPhase(p, inp);
    if IsActive(inp.st.phase) {
      RungsSoFar(p, inp.st, inp.now);
    }
  }

  lemma UnconsumedPhase(p: Plan, inp: Input)
    requires Resolved(p) && !Consumes(p, inp) && Continues(Next(p, inp))
    ensures Next(p, inp).st.phase == Paused ==> inp.st.phase == Paused
    ensures Next(p, inp).st.phase == Promoting ==>
              inp.st.phase == Promoting || (inp.st.phase == Paused && inp.approved && !Resets(p, inp))
    ensures inp.st.phase == Promoting ==> Next(p, inp).st == inp.st
    ensures Next(p, inp).action != Advance
  {
    hide Split, RealizedWeight, Analyse;
    var o := Observe(p, inp);
    if o.st.phase in {Waiting, Progressing} && !o.aborted && o.st.revision == o.target {
      AnalysisContinues(p, o);
      UnconsumedAnalysis(p, o);
    }
  }

  lemma RungsSoFar(p: Plan, st: State, t: int)
    requires Resolved(p) && Sound(p, st, t) && Elapsed(p, st, t) && IsActive(st.phase) && st.startedAt != Never
    ensures t >= st.startedAt.sec + st.step * Warmup(p)
  {
  }

  lemma {:induction false} ElapsedRun(p: Plan, tr: Trace, i: int)
    requires Resolved(p) && p.onInconclusive != PromoteOn && IsRun(p, tr) && 0 <= i < |tr.ins|
    ensures Elapsed(p, tr.ins[i].st, tr.ins[i].now) && Elapsed(p, tr.outs[i].st, tr.ins[i].now)
    decreases i
  {
    hide Split, RealizedWeight, Observe, Decide;
    SoundRun(p, tr, i);
    assert Step(p, tr, i);
    if i > 0 {
      ElapsedRun(p, tr, i - 1);
      ElapsedHandover(p, tr.outs[i - 1].st, tr.ins[i].st, tr.ins[i - 1].now, tr.ins[i].now);
    }
    ElapsedStep(p, tr.ins[i]);
  }

  /** A ladder of n rungs promotes no earlier than n warm-ups and windows after it
      started. */
  lemma PromotionTakesEveryWindow(p: Plan, tr: Trace, i: int)
    requires Resolved(p) && p.onInconclusive != PromoteOn && IsRun(p, tr) && 0 <= i < |tr.ins|
    requires tr.outs[i].action == Promote
    ensures tr.outs[i].st.startedAt != Never
    ensures tr.ins[i].now >= tr.outs[i].st.startedAt.sec + |p.weights| * (p.initialDelay + p.window)
  {
    hide Split, RealizedWeight, Observe, Decide;
    SoundRun(p, tr, i);
    assert Step(p, tr, i);
    ElapsedRun(p, tr, i);
    ActionFitsPhase(p, tr.ins[i]);
  }

  // ---- A deadline that rules promotion out -------------------------------

  /** The last rung cannot begin before the deadline has passed. */
  predicate Hopeless(p: Plan)
  {
    p.progressDeadline > 0 && (|p.weights| - 1) * (p.initialDelay + p.window) >= p.progressDeadline
  }

  predicate NeverMeasured(p: Plan, st: State)
  {
    && st.phase != Promoting && st.phase != Paused
    && (InFlight(st) && st.step == |p.weights| - 1 ==> st.availableSince == Never)
  }

  lemma LastRungIsTooLate(p: Plan, inp: Input)
    requires Resolved(p) && Hopeless(p) && Sound(p, inp.st, inp.now) && Elapsed(p, inp.st, inp.now)
    requires InFlight(inp.st) && inp.st.phase != Paused && inp.st.step == |p.weights| - 1
    requires inp.st.availableSince == Never && Continues(Next(p, inp))
    ensures Next(p, inp).action == Rollback
  {
  }

  lemma NeverMeasuredStep(p: Plan, inp: Input)
    requires Resolved(p) && p.onInconclusive != PromoteOn && Hopeless(p)
    requires Sound(p, inp.st, inp.now) && Elapsed(p, inp.st, inp.now) && NeverMeasured(p, inp.st)
    ensures NeverMeasured(p, Next(p, inp).st)
  {
    hide Split, RealizedWeight, Observe, Decide, Consumes;
    SoundStep(p, inp, inp.now);
    if !Continues(Next(p, inp)) {
      NotContinued(p, inp);
    } else {
      ContinuedAttempt(p, inp);
      if inp.st.step == |p.weights| - 1 {
        LastRungIsTooLate(p, inp);
        ActionFitsPhase(p, inp);
      } else if Consumes(p, inp) {
        JudgedPosition(p, inp);
        ConsumedRound(p, inp);
      } else {
        UnconsumedPhase(p, inp);
        UnconsumedPass(p, inp);
        ObserveKeepsStep(p, inp);
      }
    }
  }

  lemma ObserveKeepsStep(p: Plan, inp: Input)
    ensures Observe(p, inp).st.step == inp.st.step
  {
  }

  lemma {:induction false} NeverMeasuredRun(p: Plan, tr: Trace, i: int)
    requires Resolved(p) && p.onInconclusive != PromoteOn && Hopeless(p) && IsRun(p, tr) && 0 <= i < |tr.ins|
    ensures NeverMeasured(p, tr.outs[i].st)
    decreases i
  {
    hide Split, RealizedWeight, Observe, Decide;
    SoundRun(p, tr, i);
    ElapsedRun(p, tr, i);
    assert Step(p, tr, i);
    if i > 0 {
      NeverMeasuredRun(p, tr, i - 1);
    }
    NeverMeasuredStep(p, tr.ins[i]);
  }

  /** If all rungs but the last take the whole deadline, no run ever promotes: the
      deadline runs from the start of the attempt, not of the rung. */
  lemma HopelessLadderNeverPromotes(p: Plan, tr: Trace, i: int)
    requires Resolved(p) && p.onInconclusive != PromoteOn && Hopeless(p) && IsRun(p, tr) && 0 <= i < |tr.ins|
    ensures tr.outs[i].action != Promote
  {
    hide Split, RealizedWeight, Observe, Decide;
    assert Step(p, tr, i);
    NeverMeasuredRun(p, tr, i);
    ActionFitsPhase(p, tr.ins[i]);
  }
}
