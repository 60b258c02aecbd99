/** How long an attempt can stay undecided. The deadline ends every attempt whose
    readiness comes and goes (internal/canary/state.go:272-282, 700-705); only the policy
    of waiting out unclear rounds (state.go:845-863), or having no deadline, leaves it
    without a bound. */
module AttemptLength {
  import opened Verdicts
  import opened Weights
  import opened CanaryMachine
  import opened CanaryRuns
  import opened AttemptBudgets
  import opened AttemptTiming
  import opened CanaryGuarantees
  import opened FastestPromotion

  // ---- Rounds take time --------------------------------------------------

  /** No round after this position can be consumed at or before this instant. */
  function Floor(st: State, now: int): int
  {
    if st.lastAnalysis != Never then st.lastAnalysis.sec
    else if st.availableSince != Never then st.availableSince.sec
    else now
  }

  lemma SpacedPass(p: Plan, inp: Input, before: int)
    requires Resolved(p) && Sound(p, inp.st, before) && before <= inp.now
    requires Continues(Next(p, inp)) && InFlight(Next(p, inp).st)
    ensures Floor(Next(p, inp).st, inp.now) >= Floor(inp.st, before) + if Consumes(p, inp) then 1 else 0
  {
    hide Split, RealizedWeight, Decide;
    if Consumes(p, inp) {
      ConsumedRound(p, inp);
    } else {
      UnconsumedPass(p, inp);
    }
  }

  /** Since it started, an attempt has consumed no more rounds than seconds have passed. */
  lemma {:induction false} RoundsTakeTime(p: Plan, tr: Trace, a: int, b: int)
    requires Resolved(p) && OpenAttempt(p, tr, a, b)
    ensures Rounds(p, tr, a, b) <= Floor(tr.outs[b].st, tr.ins[b].now) - tr.ins[a].now <= tr.ins[b].now - tr.ins[a].now
    decreases b
  {
    hide Next, Consumes;
    assert Step(p, tr, b);
    SoundRun(p, tr, b);
    assert InFlight(tr.outs[b].st);
    if a == b {
      StartBegins(p, tr.ins[a]);
    } else {
      RoundsTakeTime(p, tr, a, b - 1);
      SoundRun(p, tr, b - 1);
      SoundHandover(p, tr.outs[b - 1].st, tr.ins[b].st, tr.ins[b - 1].now);
      assert Continues(tr.outs[b]);
      ContinuedAttempt(p, tr.ins[b]);
      SpacedPass(p, tr.ins[b], tr.ins[b - 1].now);
    }
  }

  // ---- The deadline makes readiness irrelevant ---------------------------

  /** From the deadline on, an attempt that goes on has not lost its readiness. */
  lemma SteadyPastDeadline(p: Plan, inp: Input)
    requires Resolved(p) && Sound(p, inp.st, inp.now) && p.progressDeadline > 0
    requires Continues(Next(p, inp)) && InFlight(Next(p, inp).st)
    requires inp.now >= Next(p, inp).st.startedAt.sec + p.progressDeadline
    ensures Steady(p, inp)
  {
    hide Next, Resets;
    ContinuedAttempt(p, inp);
    PodsOrNoClock(p, inp);
    if Resets(p, inp) {
      LateReadinessLossRejects(p, inp);
      ActionFitsPhase(p, inp);
    }
  }

  lemma {:induction false} LastBefore(p: Plan, tr: Trace, a: int, b: int, time: int) returns (c: int)
    requires IsRun(p, tr) && 0 <= a <= b < |tr.ins| && tr.ins[a].now < time
    ensures a <= c <= b && tr.ins[c].now < time && forall i :: c < i <= b ==> tr.ins[i].now >= time
    decreases b
  {
    hide Next;
    if tr.ins[b].now < time {
      c := b;
    } else {
      c := LastBefore(p, tr, a, b - 1, time);
    }
  }

  lemma {:induction false} RoundsAdd(p: Plan, tr: Trace, a: int, c: int, b: int)
    requires 0 <= a <= c <= b < |tr.ins|
    ensures Rounds(p, tr, a, b) == Rounds(p, tr, a, c) + Rounds(p, tr, c, b)
    decreases b
  {
    hide Consumes;
    if c < b {
      RoundsAdd(p, tr, a, c, b - 1);
    }
  }

  /** With a deadline every attempt ends, however its readiness comes and goes: before the
      deadline rounds take time, and from the deadline on readiness is kept. */
  lemma DeadlineEndsAttempts(p: Plan, tr: Trace, a: int, b: int)
    requires Resolved(p) && p.onInconclusive != HoldOn && p.progressDeadline > 0 && OpenAttempt(p, tr, a, b)
    ensures Rounds(p, tr, a, b) < p.progressDeadline + RoundBound(p)
  {
    hide Next, Consumes, Resets, RoundBound;
    assert Step(p, tr, a);
    StartBegins(p, tr.ins[a]);
    var c := LastBefore(p, tr, a, b, tr.ins[a].now + p.progressDeadline);
    assert OneAttempt(tr, a, c) && OneAttempt(tr, c, b);
    RoundsTakeTime(p, tr, a, c);
    forall i | c < i <= b
      ensures Steady(p, tr.ins[i])
    {
      assert Step(p, tr, i);
      SoundRun(p, tr, i);
      StartTimeKept(p, tr, a, i);
      assert Continues(tr.outs[i]) && InFlight(tr.outs[i].st);
      SteadyPastDeadline(p, tr.ins[i]);
    }
    AttemptsEnd(p, tr, c, b);
    RoundsAdd(p, tr, a, c, b);
  }

  // ---- Waiting has no bound ----------------------------------------------

  /** The first rung after `n` unclear rounds, the last of them at `last`. */
  function Unsure(p: Plan, n: nat, last: int): State
  {
    if n == 0 then Warming(p, 0, 0)
    else Warming(p, 0, 0).(lastAnalysis := At(last), counters := Counters(0, 0, n))
  }

  function NextRound(p: Plan, n: nat, last: int): int { if n == 0 then Warmup(p) else last + p.interval }

  function UnclearPass(p: Plan, n: nat, last: int): Input
  {
    Situation(p, 0, NextRound(p, n, last), Unsure(p, n, last), Ran(Inconclusive), false)
  }

  /** Under the waiting policy one more unclear round changes nothing. */
  lemma StillUnsure(p: Plan, n: nat, last: int)
    requires Resolved(p) && PositiveLadder(p) && p.onInconclusive == HoldOn && (n > 0 ==> last >= Warmup(p))
    ensures var inp := UnclearPass(p, n, last);
      && Consumes(p, inp) && Steady(p, inp) && Next(p, inp).action == Wait
      && Next(p, inp).st == Unsure(p, n + 1, inp.now)
  {
    hide Split, RealizedWeight;
    assert Split(2, WeightAt(p, 0)).canary >= 1;
  }

  /** An undecided attempt from the first pass to the last, with `n` rounds consumed. */
  ghost predicate Lasts(p: Plan, tr: Trace, n: nat)
  {
    OneLongAttempt(p, tr) && Rounds(p, tr, 0, |tr.ins| - 1) == n
  }

  ghost predicate SteadyThroughout(p: Plan, tr: Trace) { forall i :: 0 < i < |tr.ins| ==> Steady(p, tr.ins[i]) }

  lemma {:induction false} RoundsOfPrefix(p: Plan, tr: Trace, inp: Input, b: int)
    requires |tr.ins| == |tr.outs| && 0 <= b < |tr.ins|
    ensures Rounds(p, Then(p, tr, inp), 0, b) == Rounds(p, tr, 0, b)
    decreases b
  {
    hide Consumes, Next;
    if b > 0 {
      RoundsOfPrefix(p, tr, inp, b - 1);
    }
  }

  lemma GoesOn(p: Plan, tr: Trace, inp: Input, n: nat)
    requires Lasts(p, tr, n) && Continues(Next(p, inp)) && InFlight(Next(p, inp).st)
    requires inp.st == tr.outs[|tr.outs| - 1].st && tr.ins[|tr.ins| - 1].now <= inp.now
    ensures Lasts(p, Then(p, tr, inp), n + if Consumes(p, inp) then 1 else 0)
  {
    hide Consumes, Next;
    AttemptGoesOn(p, tr, inp);
    RoundsOfPrefix(p, tr, inp, |tr.ins| - 1);
  }

  /** For every `n` there is a run that starts an attempt, never loses readiness, consumes
      `n` unclear rounds and is as undecided as before. */
  lemma {:induction false} WaitPolicyCanHoldForever(p: Plan, n: nat) returns (tr: Trace, last: int)
    requires Resolved(p) && PositiveLadder(p) && p.onInconclusive == HoldOn
    ensures Lasts(p, tr, n) && SteadyThroughout(p, tr)
    ensures tr.outs[|tr.outs| - 1].st == Unsure(p, n, last)
    ensures tr.ins[|tr.ins| - 1].now == (if n == 0 then 0 else last) && (n > 0 ==> last >= Warmup(p))
  {
    hide Next, Consumes, Resets;
    if n == 0 {
      var a := Situation(p, 0, 0, FRESH, NoRound, false);
      var b := Situation(p, 0, 0, OnRung(0, NO_TARGET), NoRound, false);
      StartsAtZero(p);
      SeesPods(p, 0, NO_TARGET, 0);
      var first := Trace([p], [a], [Next(p, a)]);
      assert Step(p, first, 0);
      assert Lasts(p, first, 0);
      FirstSight(p);
      GoesOn(p, first, b, 0);
      tr, last := Then(p, first, b), 0;
    } else {
      var before, prev := WaitPolicyCanHoldForever(p, n - 1);
      var inp := UnclearPass(p, n - 1, prev);
      StillUnsure(p, n - 1, prev);
      GoesOn(p, before, inp, n - 1);
      tr, last := Then(p, before, inp), inp.now;
    }
  }

  lemma FirstSight(p: Plan)
    requires Resolved(p) && PositiveLadder(p)
    ensures var inp := Situation(p, 0, 0, OnRung(0, NO_TARGET), NoRound, false);
      Steady(p, inp) && !Consumes(p, inp)
  {
  }

  // ---- Without a deadline, flapping readiness has no bound either --------

  /** A round on the last rung that leaves the attempt undecided. */
  predicate Indecisive(p: Plan, v: Verdict)
  {
    match v
    case Error => p.errorLimit > 1
    case Inconclusive => p.inconclusiveLimit > 1
    case Pass => p.requireApproval
    case Fail => false
  }

  function Judged(p: Plan, k: int, since: int, v: Verdict): State
  {
    Warming(p, k, since).(phase := if v == Pass then Paused else Progressing,
                          lastAnalysis := At(since + Warmup(p)), counters := Apply(ZERO, v))
  }

  lemma UndecidedRound(p: Plan, k: int, since: int, v: Verdict)
    requires Resolved(p) && PositiveLadder(p) && k == |p.weights| - 1 && Indecisive(p, v)
    ensures var inp := Situation(p, k, since + Warmup(p), Warming(p, k, since), Ran(v), false);
      Consumes(p, inp) && Next(p, inp).st == Judged(p, k, since, v) && Next(p, inp).action != Start
  {
    hide Split, RealizedWeight;
    assert Split(2, WeightAt(p, k)).canary >= 1;
  }

  function PodLost(p: Plan, k: int, now: int, st: State): Input
  {
    Input(now, st, NEW, OLD, 2, ReadyAt(p, k).(ready := 0), NoRound, false, false)
  }

  /** Losing a pod forgets the round. */
  lemma RoundIsForgotten(p: Plan, k: int, since: int, v: Verdict)
    requires Resolved(p) && PositiveLadder(p) && k == |p.weights| - 1 && Indecisive(p, v) && p.progressDeadline <= 0
    ensures var inp := PodLost(p, k, since + Warmup(p), Judged(p, k, since, v));
      !Consumes(p, inp) && Next(p, inp).st == OnRung(k, ReadinessAt(p, k)) && Next(p, inp).action != Start
  {
    hide Split, RealizedWeight;
    assert Split(2, WeightAt(p, k)).canary >= 1;
  }

  /** Without a deadline, readiness that comes and goes keeps an attempt undecided for any
      number of rounds. */
  lemma {:induction false} FlappingCanGoOnForever(p: Plan, v: Verdict, n: nat)
    returns (tr: Trace, r: ReadinessTarget, m: nat)
    requires Resolved(p) && PositiveLadder(p) && p.progressDeadline <= 0 && Indecisive(p, v)
    ensures Lasts(p, tr, m) && m >= n
    ensures tr.outs[|tr.outs| - 1].st == OnRung(|p.weights| - 1, r)
  {
    hide Next, Consumes, Resets;
    var k, w := |p.weights| - 1, Warmup(p);
    if n == 0 {
      tr, r := Reaches(p, k);
      m := Rounds(p, tr, 0, |tr.ins| - 1);
    } else {
      var before, r0, m0 := FlappingCanGoOnForever(p, v, n - 1);
      var now := before.ins[|before.ins| - 1].now;
      var a := Situation(p, k, now, OnRung(k, r0), NoRound, false);
      var b := Situation(p, k, now + w, Warming(p, k, now), Ran(v), false);
      var c := PodLost(p, k, now + w, Judged(p, k, now, v));
      SeesPods(p, k, r0, now);
      UndecidedRound(p, k, now, v);
      RoundIsForgotten(p, k, now, v);
      GoesOn(p, before, a, m0);
      var seen := m0 + if Consumes(p, a) then 1 else 0;
      GoesOn(p, Then(p, before, a), b, seen);
      GoesOn(p, Then(p, Then(p, before, a), b), c, seen + 1);
      tr, r, m := Then(p, Then(p, Then(p, before, a), b), c), ReadinessAt(p, k), seen + 1;
    }
  }

  // ---- A plan that settles for nothing -----------------------------------

  /** Every round decides something for good: no approval is waited for, and the first
      round without a verdict ends the attempt. */
  predicate EveryRoundCounts(p: Plan)
  {
    p.onInconclusive != HoldOn && p.errorLimit <= 1 && p.inconclusiveLimit <= 1 && !p.requireApproval
  }

  function Left(p: Plan, st: State): int { |p.weights| - st.step + FailuresLeft(p, st) }

  lemma RoundCounts(p: Plan, inp: Input)
    requires Resolved(p) && EveryRoundCounts(p) && Sound(p, inp.st, inp.now) && inp.st.phase != Paused
    requires Continues(Next(p, inp)) && InFlight(Next(p, inp).st)
    ensures Next(p, inp).st.phase != Paused
    ensures Left(p, Next(p, inp).st) <= Left(p, inp.st) - if Consumes(p, inp) then 1 else 0
  {
    hide Split, RealizedWeight, Observe, Decide, Consumes;
    ContinuedAttempt(p, inp);
    if Consumes(p, inp) {
      ConsumedRound(p, inp);
      ObserveKeepsStep(p, inp);
    } else {
      UnconsumedPass(p, inp);
      UnconsumedPhase(p, inp);
      ObserveKeepsStep(p, inp);
    }
  }

  lemma {:induction false} EveryRoundIsCounted(p: Plan, tr: Trace, a: int, b: int)
    requires Resolved(p) && EveryRoundCounts(p) && OpenAttempt(p, tr, a, b)
    ensures tr.outs[b].st.phase != Paused
    ensures Rounds(p, tr, a, b) + Left(p, tr.outs[b].st) <= |p.weights| + p.failureThreshold
    decreases b
  {
    hide Next, Consumes;
    assert Step(p, tr, b);
    SoundRun(p, tr, b);
    if a == b {
      StartBegins(p, tr.ins[a]);
    } else {
      EveryRoundIsCounted(p, tr, a, b - 1);
      assert Continues(tr.outs[b]) && InFlight(tr.outs[b].st);
      ContinuedAttempt(p, tr.ins[b]);
      RoundCounts(p, tr.ins[b]);
    }
  }

  // ---- When attempts are bounded -----------------------------------------

  /** No attempt stays undecided for more than `n` rounds. */
  ghost predicate DecidedWithin(p: Plan, n: nat)
  {
    forall tr: Trace, a: int, b: int :: OpenAttempt(p, tr, a, b) ==> Rounds(p, tr, a, b) <= n
  }

  /** Which plans bound their attempts, whatever readiness, targets and operators do: those
      that do not wait unclear rounds out and that have a deadline or make every round
      count. */
  lemma AttemptsAreBoundedIff(p: Plan)
    requires Resolved(p) && PositiveLadder(p)
    ensures (exists n: nat :: DecidedWithin(p, n)) <==>
              p.onInconclusive != HoldOn && (p.progressDeadline > 0 || EveryRoundCounts(p))
  {
    hide Next, Consumes, Resets, RoundBound;
    if p.onInconclusive == HoldOn || (p.progressDeadline <= 0 && !EveryRoundCounts(p)) {
      forall n: nat
        ensures !DecidedWithin(p, n)
      {
        var tr := OutlastsAny(p, n + 1);
        assert OpenAttempt(p, tr, 0, |tr.ins| - 1);
      }
    } else {
      var n := p.failureThreshold + |p.weights| + Max(0, Max(p.progressDeadline, 0) + RoundBound(p));
      forall tr: Trace, a: int, b: int | OpenAttempt(p, tr, a, b)
        ensures Rounds(p, tr, a, b) <= n
      {
        if p.progressDeadline > 0 {
          DeadlineEndsAttempts(p, tr, a, b);
        } else {
          EveryRoundIsCounted(p, tr, a, b);
          SoundRun(p, tr, b);
        }
      }
      assert DecidedWithin(p, n);
    }
  }

  /** The controller gives every plan a deadline of at least a second, so for its plans the
      policy alone decides. */
  lemma ControllerPlansAreBoundedIff(p: Plan)
    requires Resolved(p) && PositiveLadder(p) && p.progressDeadline > 0
    ensures (exists n: nat :: DecidedWithin(p, n)) <==> p.onInconclusive != HoldOn
  {
    AttemptsAreBoundedIff(p);
  }

  lemma OutlastsAny(p: Plan, n: nat) returns (tr: Trace)
    requires Resolved(p) && PositiveLadder(p)
    requires p.onInconclusive == HoldOn || (p.progressDeadline <= 0 && !EveryRoundCounts(p))
    ensures OneLongAttempt(p, tr) && Rounds(p, tr, 0, |tr.ins| - 1) >= n
  {
    hide Next, Consumes, Resets;
    if p.onInconclusive == HoldOn {
      var last: int;
      tr, last := WaitPolicyCanHoldForever(p, n);
    } else {
      var v := if p.errorLimit > 1 then Error else if p.inconclusiveLimit > 1 then Inconclusive else Pass;
      var r: ReadinessTarget, m: nat;
      tr, r, m := FlappingCanGoOnForever(p, v, n);
    }
  }
}
