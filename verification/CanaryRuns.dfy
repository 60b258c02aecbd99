/** Whole runs of the state machine (internal/canary/state.go): what holds at every
    pass, however readiness, targets, capacity and operator signals move. */
module CanaryRuns {
  import opened Verdicts
  import opened Weights
  import opened CanaryMachine

  /** Passes in order, the plan each of them worked by, and what it decided. */
  datatype Trace = Trace(plans: seq<Plan>, ins: seq<Input>, outs: seq<Output>)

  /** What the next pass may start from after `s` was persisted: the same position,
      with the rejection and the metric handshake possibly rewritten by the
      controller, or no rollout in flight at all. */
  predicate Handover(s: State, t: State)
  {
    || t.phase in {Idle, RollingBack}
    || SamePosition(s.(failed := t.failed, scopeReady := t.scopeReady), t)
  }

  /** Pass `i` decides by its own plan, on the position and the clock it was handed. */
  ghost predicate EditedStep(tr: Trace, i: int)
    requires 0 <= i < |tr.plans| == |tr.ins| == |tr.outs|
  {
    && Resolved(tr.plans[i]) && tr.outs[i] == Next(tr.plans[i], tr.ins[i])
    && (i == 0 ==> tr.ins[0].st.phase in {Idle, RollingBack})
    && (i > 0 ==> Handover(tr.outs[i - 1].st, tr.ins[i].st) && tr.ins[i - 1].now <= tr.ins[i].now)
  }

  /** A run starts with nothing in flight and its clock never goes back. Its plan may be
      edited between any two passes, in mid-rollout included. */
  ghost predicate IsEditedRun(tr: Trace)
  {
    |tr.plans| == |tr.ins| == |tr.outs| && forall i :: 0 <= i < |tr.ins| ==> EditedStep(tr, i)
  }

  ghost predicate Step(p: Plan, tr: Trace, i: int)
    requires 0 <= i < |tr.plans| == |tr.ins| == |tr.outs|
  {
    && tr.plans[i] == p && tr.outs[i] == Next(p, tr.ins[i])
    && (i == 0 ==> tr.ins[0].st.phase in {Idle, RollingBack})
    && (i > 0 ==> Handover(tr.outs[i - 1].st, tr.ins[i].st) && tr.ins[i - 1].now <= tr.ins[i].now)
  }

  /** A run of one plan. */
  ghost predicate IsRun(p: Plan, tr: Trace)
  {
    |tr.plans| == |tr.ins| == |tr.outs| && forall i :: 0 <= i < |tr.ins| ==> Step(p, tr, i)
  }

  lemma FixedPlanIsEdited(p: Plan, tr: Trace)
    requires Resolved(p) && IsRun(p, tr)
    ensures IsEditedRun(tr)
  {
    hide Next;
    forall i | 0 <= i < |tr.ins|
      ensures EditedStep(tr, i)
    {
      assert Step(p, tr, i);
    }
  }

  // ---- The invariant of a position ---------------------------------------

  /** What canaryPlan guarantees of a plan: positive durations and limits, and a ladder. */
  predicate Resolved(p: Plan)
  {
    && |p.weights| > 0
    && p.interval > 0 && p.initialDelay > 0 && p.window > 0
    && p.failureThreshold > 0 && p.errorLimit > 0 && p.inconclusiveLimit > 0
  }

  predicate InFlight(st: State) { IsActive(st.phase) && st.startedAt != Never }

  /** A position reached by a run whose last pass was at time `t`. */
  predicate Sound(p: Plan, st: State, t: int)
  {
    && (st.phase == Promoting ==> st.startedAt != Never)
    && (IsActive(st.phase) ==>
      && 0 <= st.step < |p.weights|
      && (st.phase == Paused ==> st.step == |p.weights| - 1 && InFlight(st) && st.availableSince != Never)
      && (st.startedAt == Never ==> st.step == 0 && st.availableSince == Never && st.counters == ZERO)
      && (st.startedAt != Never ==> st.startedAt.sec <= t)
      && (st.availableSince == Never ==> st.lastAnalysis == Never && st.counters == ClearRuns(st.counters))
      && (st.availableSince != Never ==> st.availableSince.sec <= t)
      && (st.lastAnalysis != Never ==> st.availableSince.sec + Warmup(p) <= st.lastAnalysis.sec <= t)
      && st.counters.failed < p.failureThreshold
      && st.counters.consecErr < p.errorLimit
      && (p.onInconclusive == HoldOn || st.counters.consecInconcl < p.inconclusiveLimit))
  }

  /** What every plan makes of a position: without an attempt or without readiness there is
      nothing to show for it. */
  predicate Coherent(st: State)
  {
    && (st.phase == Paused || st.phase == Promoting ==> st.startedAt != Never)
    && (IsActive(st.phase) ==>
          && (st.startedAt == Never ==> st.availableSince == Never && st.counters == ZERO)
          && (st.availableSince == Never ==> st.lastAnalysis == Never)
          && st.step >= 0)
  }

  lemma CoherentAnalysis(p: Plan, o: Input)
    requires Resolved(p) && Coherent(o.st) && InFlight(o.st)
    ensures Coherent(Analyse(p, o).st)
  {
    hide Split, RealizedWeight, Apply;
  }

  lemma CoherentStep(p: Plan, inp: Input)
    requires Resolved(p) && Coherent(inp.st)
    ensures Coherent(Next(p, inp).st)
  {
    hide Split, RealizedWeight, Analyse;
    var o := Observe(p, inp);
    if InFlight(o.st) {
      CoherentAnalysis(p, o);
    } else {
      AnalysisContinues(p, o);
    }
  }

  lemma {:induction false} CoherentRun(tr: Trace, i: int)
    requires IsEditedRun(tr) && 0 <= i < |tr.ins|
    ensures Coherent(tr.ins[i].st) && Coherent(tr.outs[i].st)
    decreases i
  {
    hide Next;
    assert EditedStep(tr, i);
    if i > 0 {
      CoherentRun(tr, i - 1);
    }
    CoherentStep(tr.plans[i], tr.ins[i]);
  }

  /** The candidate is not ready, or has not been for the warm-up and the window. */
  predicate Unmeasured(p: Plan, st: State, now: int)
  {
    st.availableSince == Never || now < st.availableSince.sec + Warmup(p)
  }

  /** A started candidate with pods is at or past its deadline. */
  predicate Overdue(p: Plan, inp: Input)
  {
    && inp.st.startedAt != Never && CountsAt(p, inp, inp.st.step).canary != 0
    && p.progressDeadline > 0 && inp.now >= inp.st.startedAt.sec + p.progressDeadline
  }

  /** And it has yet to be measured on its rung, or loses its readiness on this pass. */
  predicate TooLate(p: Plan, inp: Input)
  {
    && Observes(inp) && !inp.aborted && Overdue(p, inp)
    && (|| Resets(p, inp)
        || (inp.st.phase != Paused && inp.st.lastAnalysis == Never && Unmeasured(p, inp.st, inp.now)))
  }

  /** Observing changes neither what is tried nor on which rung. */
  lemma ObserveKeepsIdentity(p: Plan, inp: Input)
    ensures var o := Observe(p, inp).st;
      && o.revision == inp.st.revision && o.failed == inp.st.failed && o.stable == inp.st.stable
      && o.startedAt == inp.st.startedAt && o.step == inp.st.step
      && (IsActive(o.phase) <==> IsActive(inp.st.phase)) && (!IsActive(o.phase) ==> o == inp.st)
      && (o.phase == Paused ==> inp.st.phase == Paused)
  {
  }

  lemma SoundHandover(p: Plan, s: State, t: State, time: int)
    requires Sound(p, s, time) && Handover(s, t)
    ensures Sound(p, t, time)
  {
  }

  lemma SoundObserve(p: Plan, inp: Input, t: int)
    requires Resolved(p) && Sound(p, inp.st, t) && t <= inp.now
    ensures Sound(p, Observe(p, inp).st, inp.now) || (inp.st.startedAt == Never && IsActive(inp.st.phase))
    ensures inp.st.startedAt == Never && IsActive(inp.st.phase) ==>
              IsActive(Observe(p, inp).st.phase) && Observe(p, inp).st.startedAt == Never
  {
    hide Split, RealizedWeight;
  }

  lemma SoundAnalyse(p: Plan, o: Input)
    requires Resolved(p) && o.st.phase in {Waiting, Progressing}
    requires o.st.startedAt == Never || Sound(p, o.st, o.now)
    ensures Sound(p, Analyse(p, o).st, o.now)
  {
    hide Split, RealizedWeight;
    if o.round.Ran? && o.st.startedAt != Never && DueForAnalysis(o.now, p, o.st) {
      var v := o.round.verdict;
      SoundJudge(p, o, o.st.(lastAnalysis := At(o.now), counters := Apply(o.st.counters, v)), v);
    }
  }

  lemma SoundJudge(p: Plan, o: Input, st: State, v: Verdict)
    requires Resolved(p) && InFlight(o.st) && o.st.phase in {Waiting, Progressing}
    requires Sound(p, o.st, o.now) && DueForAnalysis(o.now, p, o.st)
    requires st == o.st.(lastAnalysis := At(o.now), counters := Apply(o.st.counters, v))
    ensures Sound(p, Judge(p, o, st, v).st, o.now)
  {
  }

  lemma SoundStep(p: Plan, inp: Input, t: int)
    requires Resolved(p) && Sound(p, inp.st, t) && t <= inp.now
    ensures Sound(p, Next(p, inp).st, inp.now)
  {
    hide Split, RealizedWeight, Analyse;
    SoundObserve(p, inp, t);
    var o := Observe(p, inp);
    if o.st.phase in {Waiting, Progressing} {
      SoundAnalyse(p, o);
    }
  }

  lemma {:induction false} SoundRun(p: Plan, tr: Trace, i: int)
    requires Resolved(p) && IsRun(p, tr) && 0 <= i < |tr.ins|
    ensures Sound(p, tr.ins[i].st, tr.ins[i].now)
    ensures Sound(p, tr.outs[i].st, tr.ins[i].now)
    decreases i
  {
    assert Step(p, tr, i);
    if i > 0 {
      SoundRun(p, tr, i - 1);
      SoundHandover(p, tr.outs[i - 1].st, tr.ins[i].st, tr.ins[i - 1].now);
    }
    SoundStep(p, tr.ins[i], if i == 0 then tr.ins[0].now else tr.ins[i - 1].now);
  }

  // ---- What one pass does to an attempt ----------------------------------

  function ResetCounters(p: Plan, inp: Input): Counters
  {
    if Resets(p, inp) then ClearRuns(inp.st.counters) else inp.st.counters
  }

  /** The budgets after this pass, from the events of this pass. */
  function Spent(p: Plan, inp: Input): Counters
  {
    var c := ResetCounters(p, inp);
    if Consumes(p, inp) then Apply(c, inp.round.verdict) else c
  }

  /** The pass leaves the attempt it found, neither starting nor dropping one. */
  predicate Continues(out: Output) { out.st.startedAt != Never && out.action != Start }

  /** What a consumed round does, case by case. */
  lemma ConsumedRound(p: Plan, inp: Input)
    requires Resolved(p) && Consumes(p, inp)
    ensures Continues(Next(p, inp)) && !Resets(p, inp) && inp.round.Ran? && Observes(inp)
    ensures inp.st.phase in {Waiting, Progressing} && inp.st.startedAt != Never
    ensures var o := Observe(p, inp);
            Next(p, inp) == Judge(p, o, o.st.(lastAnalysis := At(o.now), counters := Spent(p, inp)), inp.round.verdict)
  {
  }

  lemma AnalysisActs(p: Plan, o: Input)
    ensures Analyse(p, o).action != Nothing
  {
    hide Split, RealizedWeight, Apply;
  }

  lemma UnconsumedAnalysis(p: Plan, o: Input)
    requires Continues(Analyse(p, o)) && (o.round == NoRound || !DueForAnalysis(o.now, p, o.st))
    ensures var out := Analyse(p, o); out.st == o.st.(phase := out.st.phase, failed := out.st.failed)
    ensures var out := Analyse(p, o);
            (out.action == Wait && out.st.phase in {Waiting, Progressing})
            || (out.action == Rollback && out.st.phase == RollingBack)
  {
  }

  /** A pass that continues an attempt without consuming a round moves only its phase. */
  lemma UnconsumedPass(p: Plan, inp: Input)
    requires Resolved(p) && Continues(Next(p, inp)) && !Consumes(p, inp)
    ensures IsActive(inp.st.phase) || inp.st.phase == Promoting
    ensures var o, out := Observe(p, inp), Next(p, inp);
            out.st == o.st.(phase := out.st.phase, failed := out.st.failed)
  {
    hide Split, RealizedWeight, Analyse;
    var o := Observe(p, inp);
    if o.st.phase in {Waiting, Progressing} && !o.aborted && o.st.revision == o.target {
      AnalysisContinues(p, o);
      UnconsumedAnalysis(p, o);
    }
  }

  lemma AnalysisContinues(p: Plan, o: Input)
    ensures Continues(Analyse(p, o)) <==> CountsAt(p, o, o.st.step).canary != 0 && o.st.startedAt != Never
    ensures !Continues(Analyse(p, o)) ==> Analyse(p, o) == CapacityHold(p, o) || Analyse(p, o) == Begun(p, o)
  {
    hide Split, RealizedWeight;
  }

  lemma ContinuedAttempt(p: Plan, inp: Input)
    requires Resolved(p) && Continues(Next(p, inp))
    ensures IsActive(inp.st.phase) || inp.st.phase == Promoting
    ensures inp.st.startedAt == Next(p, inp).st.startedAt
    ensures inp.st.revision == Next(p, inp).st.revision
    ensures inp.st.stable == Next(p, inp).st.stable
    ensures Next(p, inp).st.counters == Spent(p, inp)
  {
    hide Split, RealizedWeight, Decide;
    if Consumes(p, inp) {
      ConsumedRound(p, inp);
    } else {
      UnconsumedPass(p, inp);
    }
  }

  /** An attempt keeps the time at which it started. */
  lemma {:induction false} StartTimeKept(p: Plan, tr: Trace, a: int, i: int)
    requires Resolved(p) && IsRun(p, tr) && 0 <= a <= i < |tr.ins| && tr.outs[a].action == Start
    requires forall j :: a < j <= i ==> Continues(tr.outs[j])
    ensures tr.outs[i].st.startedAt == At(tr.ins[a].now)
    decreases i
  {
    hide Split, RealizedWeight, Observe, Decide, Consumes;
    assert Step(p, tr, i);
    SoundRun(p, tr, i);
    if a < i {
      StartTimeKept(p, tr, a, i - 1);
      assert Continues(tr.outs[i]);
      ContinuedAttempt(p, tr.ins[i]);
    } else {
      StartsNow(p, tr.ins[i]);
    }
  }

  lemma StartsNow(p: Plan, inp: Input)
    requires Next(p, inp).action == Start
    ensures Next(p, inp).st.startedAt == At(inp.now)
  {
    hide Split, RealizedWeight, Analyse, Observe;
    ObserveKeeps(p, inp);
    AnalysisContinues(p, Observe(p, inp));
  }
}
