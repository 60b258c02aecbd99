/** What a promotion rests on, over whole runs: a passed round at every rung of one
    attempt, and an approval where one is required (internal/canary/state.go:661-821). */
module AttemptEvidence {
  import opened Verdicts
  import opened Weights
  import opened CanaryMachine
  import opened CanaryRuns
  import opened AttemptTiming
  import opened AttemptBudgets

  /** The passes that make up one attempt: where it started, where each rung was
      passed and, if it was, where promotion was approved. */
  datatype Attempt = Attempt(start: int, rungs: seq<int>, approval: int)

  /** Pass `i` consumed a passing round on rung `k` of revision `r`. */
  predicate PassedRung(p: Plan, inp: Input, k: int, r: Revision)
  {
    Consumes(p, inp) && inp.round == Ran(Pass) && inp.st.step == k && inp.st.revision == r
  }

  /** Pass `a.start` began an attempt at revision `r` that no later pass up to `i`
      restarted, and the attempt passed rungs 0 .. |a.rungs|-1 in order. */
  ghost predicate Climbed(p: Plan, tr: Trace, a: Attempt, r: Revision, i: int)
    requires |tr.ins| == |tr.outs|
  {
    && 0 <= a.start <= i < |tr.outs|
    && tr.outs[a.start].action == Start && tr.outs[a.start].st.revision == r
    && (forall j :: a.start < j <= i ==> Continues(tr.outs[j]) && tr.outs[j].st.revision == r)
    && (forall k :: 0 <= k < |a.rungs| ==>
          a.start < a.rungs[k] <= i && PassedRung(p, tr.ins[a.rungs[k]], k, r))
    && (forall k, l :: 0 <= k < l < |a.rungs| ==> a.rungs[k] < a.rungs[l])
  }

  /** An operator approved the attempt while it was paused. */
  ghost predicate Approved(tr: Trace, a: Attempt, i: int)
  {
    a.start < a.approval <= i < |tr.ins| && 0 <= a.approval
    && tr.ins[a.approval].approved && tr.ins[a.approval].st.phase == Paused
  }

  lemma Extend(p: Plan, tr: Trace, a: Attempt, r: Revision, i: int)
    requires |tr.ins| == |tr.outs| && i + 1 < |tr.outs|
    requires Climbed(p, tr, a, r, i) && Continues(tr.outs[i + 1]) && tr.outs[i + 1].st.revision == r
    ensures Climbed(p, tr, a, r, i + 1)
  {
  }

  lemma AddRung(p: Plan, tr: Trace, a: Attempt, r: Revision, i: int)
    requires |tr.ins| == |tr.outs| && Climbed(p, tr, a, r, i) && a.start < i
    requires PassedRung(p, tr.ins[i], |a.rungs|, r)
    requires forall k :: 0 <= k < |a.rungs| ==> a.rungs[k] < i
    ensures Climbed(p, tr, a.(rungs := a.rungs + [i]), r, i)
  {
  }

  lemma DropRung(p: Plan, tr: Trace, a: Attempt, r: Revision, i: int, n: int)
    requires |tr.ins| == |tr.outs| && Climbed(p, tr, a, r, i) && 0 <= n <= |a.rungs|
    ensures Climbed(p, tr, a.(rungs := a.rungs[..n]), r, i)
  {
  }

  /** The attempt in flight after pass `i`, with its evidence. */
  lemma {:induction false} Evidence(p: Plan, tr: Trace, i: int) returns (a: Attempt)
    requires Resolved(p) && p.onInconclusive != PromoteOn && IsRun(p, tr) && 0 <= i < |tr.ins|
    requires InFlight(tr.outs[i].st) || tr.outs[i].st.phase == Promoting
    ensures Climbed(p, tr, a, tr.outs[i].st.revision, i)
    ensures |a.rungs| == RungsMeasured(p, tr.outs[i].st)
    ensures tr.outs[i].st.phase == Promoting && p.requireApproval ==> Approved(tr, a, i)
    decreases i
  {
    hide Split, RealizedWeight, Observe, Decide, Consumes, Resets, PassedRung;
    SoundRun(p, tr, i);
    assert Step(p, tr, i);
    var inp, out := tr.ins[i], tr.outs[i];
    ActionFitsPhase(p, inp);
    if !Continues(out) {
      NotContinued(p, inp);
      a := Attempt(i, [], 0);
    } else {
      ContinuedAttempt(p, inp);
      var prev := Evidence(p, tr, i - 1);
      Extend(p, tr, prev, out.st.revision, i - 1);
      if Consumes(p, inp) {
        JudgedPosition(p, inp);
        ConsumedRound(p, inp);
        a := prev;
        if inp.round == Ran(Pass) {
          assert PassedRung(p, inp, |prev.rungs|, out.st.revision) by { PassedHere(p, inp); }
          AddRung(p, tr, prev, out.st.revision, i);
          a := prev.(rungs := prev.rungs + [i]);
        }
      } else {
        a := EvidenceKept(p, tr, i, prev);
      }
    }
  }

  /** A pass without a round keeps the evidence, gives up a paused rung, or records
      the approval that released it. */
  lemma EvidenceKept(p: Plan, tr: Trace, i: int, prev: Attempt) returns (a: Attempt)
    requires Resolved(p) && IsRun(p, tr) && 0 < i < |tr.ins|
    requires Continues(tr.outs[i]) && !Consumes(p, tr.ins[i]) && Sound(p, tr.ins[i].st, tr.ins[i].now)
    requires InFlight(tr.outs[i].st) || tr.outs[i].st.phase == Promoting
    requires Climbed(p, tr, prev, tr.outs[i].st.revision, i) && prev.start < i
    requires |prev.rungs| == RungsMeasured(p, tr.ins[i].st)
    requires tr.ins[i].st.phase == Promoting && p.requireApproval ==> Approved(tr, prev, i - 1)
    ensures Climbed(p, tr, a, tr.outs[i].st.revision, i)
    ensures |a.rungs| == RungsMeasured(p, tr.outs[i].st)
    ensures tr.outs[i].st.phase == Promoting && p.requireApproval ==> Approved(tr, a, i)
  {
    hide Split, RealizedWeight, Observe, Decide, Consumes, Resets, PassedRung;
    assert Step(p, tr, i);
    var inp, out := tr.ins[i], tr.outs[i];
    UnconsumedPhase(p, inp);
    UnconsumedPass(p, inp);
    ObserveKeepsStep(p, inp);
    a := prev;
    if RungsMeasured(p, out.st) < |prev.rungs| {
      DropRung(p, tr, prev, out.st.revision, i, RungsMeasured(p, out.st));
      a := prev.(rungs := prev.rungs[..RungsMeasured(p, out.st)]);
    } else if out.st.phase == Promoting && inp.st.phase == Paused {
      a := prev.(approval := i);
    }
  }

  lemma PassedHere(p: Plan, inp: Input)
    requires Consumes(p, inp) && inp.round == Ran(Pass)
    ensures PassedRung(p, inp, inp.st.step, inp.st.revision)
  {
  }

  /** A promotion rests on a passed round at every rung of one attempt at that very
      revision, and on an approval if the plan asks for one. */
  lemma PromotionIsEarned(p: Plan, tr: Trace, i: int) returns (a: Attempt)
    requires Resolved(p) && p.onInconclusive != PromoteOn && IsRun(p, tr) && 0 <= i < |tr.ins|
    requires tr.outs[i].action == Promote
    ensures Climbed(p, tr, a, tr.outs[i].st.revision, i)
    ensures |a.rungs| == |p.weights|
    ensures p.requireApproval ==> Approved(tr, a, i)
  {
    hide Split, RealizedWeight, Observe, Decide;
    assert Step(p, tr, i);
    ActionFitsPhase(p, tr.ins[i]);
    a := Evidence(p, tr, i);
  }

  // ---- Exposure only grows -----------------------------------------------

  lemma HeldCounts(p: Plan, inp: Input)
    requires Resolved(p) && InFlight(Next(p, inp).st)
    ensures Next(p, inp).canary == CountsAt(p, inp, Next(p, inp).st.step).canary
  {
    hide Split, RealizedWeight, Analyse, CountsAt, Observe;
    var o := Observe(p, inp);
    ObserveKeeps(p, inp);
    HeldAnalysis(p, o);
    SameCounts(p, o, inp, Next(p, inp).st.step);
  }

  lemma HeldAnalysis(p: Plan, o: Input)
    ensures InFlight(Analyse(p, o).st) ==> Analyse(p, o).canary == CountsAt(p, o, Analyse(p, o).st.step).canary
  {
  }

  lemma SameCounts(p: Plan, a: Input, b: Input, step: int)
    requires a.total == b.total
    ensures CountsAt(p, a, step) == CountsAt(p, b, step)
  {
  }

  lemma StepNeverDrops(p: Plan, inp: Input)
    requires Resolved(p) && Sound(p, inp.st, inp.now) && Continues(Next(p, inp)) && InFlight(Next(p, inp).st)
    ensures inp.st.step <= Next(p, inp).st.step
  {
    hide Split, RealizedWeight, Observe, Decide, Consumes;
    if Consumes(p, inp) {
      JudgedPosition(p, inp);
      ActionFitsPhase(p, inp);
    } else {
      UnconsumedPass(p, inp);
      ObserveKeepsStep(p, inp);
    }
  }

  /** Along an increasing ladder and at a fixed total, the canary never loses a
      replica while its attempt is in flight. */
  lemma {:induction false} CanaryNeverShrinks(p: Plan, tr: Trace, a: int, b: int)
    requires Resolved(p) && StrictlyIncreasing(p.weights) && IsRun(p, tr)
    requires 0 <= a <= b < |tr.ins| && OneAttempt(tr, a, b)
    requires tr.ins[a].total >= 0 && forall i :: a <= i <= b ==> tr.ins[i].total == tr.ins[a].total
    ensures tr.outs[a].st.step <= tr.outs[b].st.step
    ensures tr.outs[a].canary <= tr.outs[b].canary
    decreases b
  {
    hide Split, RealizedWeight, Observe, Decide;
    SoundRun(p, tr, a);
    SoundRun(p, tr, b);
    assert Step(p, tr, a) && Step(p, tr, b);
    assert InFlight(tr.outs[a].st) && InFlight(tr.outs[b].st);
    HeldCounts(p, tr.ins[a]);
    HeldCounts(p, tr.ins[b]);
    if a < b {
      CanaryNeverShrinks(p, tr, a, b - 1);
      ContinuedAttempt(p, tr.ins[b]);
      StepNeverDrops(p, tr.ins[b]);
      var s, t := tr.outs[a].st.step, tr.outs[b].st.step;
      assert WeightAt(p, s) <= WeightAt(p, t);
      SplitMonotone(tr.ins[a].total, WeightAt(p, s), tr.ins[a].total, WeightAt(p, t));
    }
  }
}
