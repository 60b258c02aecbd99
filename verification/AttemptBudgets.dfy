/** The three budgets over whole attempts: what they count, when they end an
    attempt, and why every attempt ends (internal/canary/verdict.go:125-145,
    internal/canary/state.go:725-821). */
module AttemptBudgets {
  import opened Verdicts
  import opened Weights
  import opened CanaryMachine
  import opened CanaryRuns

  /** The rounds consumed and the readiness resets seen by the attempt that is in
      flight after pass `i`, in order. */
  ghost function History(tr: Trace, i: int): seq<Event>
    requires 0 <= i < |tr.plans| == |tr.ins| == |tr.outs|
    decreases i
  {
    if !Continues(tr.outs[i]) then []
    else
      (if i == 0 then [] else History(tr, i - 1)) + Happened(tr.plans[i], tr.ins[i])
  }

  ghost function Happened(p: Plan, inp: Input): seq<Event>
  {
    (if Resets(p, inp) then [Reset] else []) +
    (if Consumes(p, inp) && inp.round.Ran? then [Round(inp.round.verdict)] else [])
  }

  lemma TallyHappened(p: Plan, inp: Input, es: seq<Event>)
    requires Resolved(p) && Tally(es) == inp.st.counters
    ensures Tally(es + Happened(p, inp)) == Spent(p, inp)
  {
    hide Observe, Tally, Apply;
    if Consumes(p, inp) {
      ConsumedRound(p, inp);
      TallyRound(es, inp.round.verdict);
      assert es + Happened(p, inp) == es + [Round(inp.round.verdict)];
    } else if Resets(p, inp) {
      TallyReset(es);
      assert es + Happened(p, inp) == es + [Reset];
    } else {
      assert es + Happened(p, inp) == es;
    }
  }

  /** Budgets are exact functions of the attempt's round history, however its plan is
      edited. */
  lemma {:induction false} BudgetsFollowHistory(tr: Trace, i: int)
    requires IsEditedRun(tr) && 0 <= i < |tr.ins|
    ensures tr.outs[i].st.counters == Tally(History(tr, i))
    decreases i
  {
    hide Observe, Tally, Decide;
    CoherentRun(tr, i);
    assert EditedStep(tr, i);
    var p := tr.plans[i];
    if Continues(tr.outs[i]) {
      ContinuedAttempt(p, tr.ins[i]);
      BudgetsFollowHistory(tr, i - 1);
      TallyHappened(p, tr.ins[i], History(tr, i - 1));
    } else {
      NoAttemptNoBudget(p, tr.ins[i]);
      EmptyTally();
    }
  }

  lemma EmptyTally()
    ensures Tally([]) == ZERO
  {
  }

  lemma NoAttemptNoBudget(p: Plan, inp: Input)
    requires Resolved(p) && Coherent(inp.st) && !Continues(Next(p, inp))
    ensures Next(p, inp).st.counters == ZERO
  {
    hide Split, RealizedWeight, Analyse;
    AnalysisContinues(p, Observe(p, inp));
  }

  // ---- What ends an attempt ----------------------------------------------

  /** No candidate misses its deadline unnoticed, and none is rolled back for it early. */
  lemma DeadlineRollsBackIff(p: Plan, inp: Input)
    requires Resolved(p) && Coherent(inp.st)
    ensures Next(p, inp).action == Rollback && Next(p, inp).reason == DeadlineExceeded <==> TooLate(p, inp)
  {
    hide Split, RealizedWeight, Observe, Analyse, PastDeadline, TooLate;
    ObserveKeeps(p, inp);
    ObserveKeepsIdentity(p, inp);
    AnalysisDeadline(p, Observe(p, inp));
    ObservedTooLate(p, inp);
  }

  lemma AnalysisDeadline(p: Plan, o: Input)
    ensures Analyse(p, o).reason == DeadlineExceeded <==>
              CountsAt(p, o, o.st.step).canary != 0 && o.st.startedAt != Never && PastDeadline(p, o)
    ensures Analyse(p, o).reason == DeadlineExceeded ==> Analyse(p, o).action == Rollback
  {
    hide Split, RealizedWeight;
  }

  lemma ObservedTooLate(p: Plan, inp: Input)
    requires Resolved(p) && Coherent(inp.st)
    ensures var o := Observe(p, inp);
      TooLate(p, inp) <==>
        && Observes(inp) && !inp.aborted && o.st.phase != Paused
        && CountsAt(p, o, o.st.step).canary != 0 && o.st.startedAt != Never && PastDeadline(p, o)
  {
    hide Split, RealizedWeight;
  }

  /** Why this pass must roll back, if it must. */
  function Cause(p: Plan, inp: Input): Reason
  {
    if inp.aborted && IsActive(inp.st.phase) then CanaryAborted
    else if TooLate(p, inp) then DeadlineExceeded
    else if !Consumes(p, inp) || !inp.round.Ran? then Unexplained
    else
      var spent := Spent(p, inp);
      match inp.round.verdict
      case Pass => Unexplained
      case Fail => if spent.failed >= p.failureThreshold then CanaryRolledBack else Unexplained
      case Error => if spent.consecErr >= p.errorLimit then AnalysisError else Unexplained
      case Inconclusive =>
        if spent.consecInconcl >= p.inconclusiveLimit && p.onInconclusive == RollbackOn then AnalysisInconclusive
        else Unexplained
  }

  /** A pass rolls back exactly when it must: aborted, too late, or out of a budget. */
  lemma RollsBackIff(p: Plan, inp: Input)
    requires Resolved(p) && Coherent(inp.st)
    ensures Next(p, inp).action == Rollback <==> Cause(p, inp) != Unexplained
    ensures Next(p, inp).action == Rollback ==> Next(p, inp).reason == Cause(p, inp)
  {
    hide Split, RealizedWeight, Observe, Decide, Consumes, TooLate, Apply;
    DeadlineRollsBackIff(p, inp);
    if inp.aborted && IsActive(inp.st.phase) {
      AbortRollsBack(p, inp);
    } else if Consumes(p, inp) {
      ConsumedRound(p, inp);
    } else if Next(p, inp).action == Rollback {
      UnconsumedRollback(p, inp);
    }
  }

  lemma AbortRollsBack(p: Plan, inp: Input)
    requires inp.aborted && IsActive(inp.st.phase)
    ensures Next(p, inp).action == Rollback && Next(p, inp).reason == CanaryAborted
  {
    hide Split, RealizedWeight, Analyse;
  }

  /** A rollback has one of five causes, and its reason tells which. */
  lemma RollbackCauses(p: Plan, inp: Input)
    requires Resolved(p) && Sound(p, inp.st, inp.now) && Next(p, inp).action == Rollback
    ensures var out := Next(p, inp);
      || (out.reason == CanaryAborted && inp.aborted)
      || (out.reason == DeadlineExceeded && TooLate(p, inp) && !Consumes(p, inp))
      || (out.reason == CanaryRolledBack && Consumes(p, inp) && inp.round == Ran(Fail))
      || (out.reason == AnalysisError && Consumes(p, inp) && inp.round == Ran(Error))
      || (out.reason == AnalysisInconclusive && Consumes(p, inp) && inp.round == Ran(Inconclusive)
          && p.onInconclusive == RollbackOn)
  {
    hide Next, TooLate, Consumes, Spent;
    RollsBackIff(p, inp);
    DeadlineRollsBackIff(p, inp);
    if Consumes(p, inp) {
      JudgedInTime(p, inp);
    }
  }

  lemma JudgedInTime(p: Plan, inp: Input)
    requires Resolved(p) && Sound(p, inp.st, inp.now) && Consumes(p, inp)
    ensures !TooLate(p, inp)
  {
    hide Split, RealizedWeight, Decide;
    ConsumedRound(p, inp);
  }

  lemma UnconsumedRollback(p: Plan, inp: Input)
    requires Next(p, inp).action == Rollback && !Consumes(p, inp)
    ensures Next(p, inp).reason == DeadlineExceeded || (inp.aborted && IsActive(inp.st.phase))
  {
    hide Split, RealizedWeight, Observe, Analyse;
    ObserveKeeps(p, inp);
    ObserveKeepsIdentity(p, inp);
    var o := Observe(p, inp);
    if o.st.phase in {Waiting, Progressing} && !o.aborted && o.st.revision == o.target {
      UndueRollback(p, o);
    }
  }

  lemma UndueRollback(p: Plan, o: Input)
    requires Analyse(p, o).action == Rollback
    ensures || Analyse(p, o).reason == DeadlineExceeded
            || (o.round.Ran? && DueForAnalysis(o.now, p, o.st) && o.st.startedAt != Never
                && CountsAt(p, o, o.st.step).canary != 0)
  {
  }

  /** The failure budget: a failed check holds the rollout until the
      FailureThreshold-th failure of the attempt, which rolls it back, whatever
      passes, errors or readiness flaps came between. */
  lemma FailureThresholdIsExact(p: Plan, tr: Trace, i: int)
    requires Resolved(p) && IsRun(p, tr) && 0 <= i < |tr.ins|
    ensures var failures := Count(History(tr, i), Round(Fail));
            var out := tr.outs[i];
            && (Consumes(p, tr.ins[i]) && tr.ins[i].round == Ran(Fail) ==>
                  && 1 <= failures <= p.failureThreshold
                  && (failures < p.failureThreshold ==> out.action == Wait && out.reason == ChecksFailed)
                  && (failures == p.failureThreshold ==> out.action == Rollback && out.reason == CanaryRolledBack))
            && (out.action == Rollback && out.reason == CanaryRolledBack ==>
                  Consumes(p, tr.ins[i]) && tr.ins[i].round == Ran(Fail) && failures == p.failureThreshold)
  {
    hide Next, Tally, History, Consumes;
    SoundRun(p, tr, i);
    assert Step(p, tr, i);
    FixedPlanIsEdited(p, tr);
    BudgetsFollowHistory(tr, i);
    TallyParts(History(tr, i));
    var inp := tr.ins[i];
    if tr.outs[i].action == Rollback {
      RollbackCauses(p, inp);
    }
    if Consumes(p, inp) && inp.round == Ran(Fail) {
      FailedRound(p, inp);
    }
  }

  lemma FailedRound(p: Plan, inp: Input)
    requires Resolved(p) && Sound(p, inp.st, inp.now) && Consumes(p, inp) && inp.round == Ran(Fail)
    ensures var out, failures := Next(p, inp), Next(p, inp).st.counters.failed;
      && 1 <= failures <= p.failureThreshold
      && (failures < p.failureThreshold ==> out.action == Wait && out.reason == ChecksFailed)
      && (failures == p.failureThreshold ==> out.action == Rollback && out.reason == CanaryRolledBack)
  {
    hide Observe, Decide, Consumes;
    ConsumedRound(p, inp);
    ContinuedAttempt(p, inp);
  }

  lemma TallyParts(es: seq<Event>)
    ensures Tally(es).failed == Count(es, Round(Fail))
    ensures Tally(es).consecErr == |TrailingIn(es, ERRORS)|
  {
  }

  lemma TallyUnclear(es: seq<Event>)
    ensures Tally(es).consecInconcl == Count(TrailingIn(es, UNUSABLE), Round(Inconclusive))
  {
  }

  /** The error budget: the attempt is abandoned, with AnalysisError and never as
      a verdict on the release, exactly when the unbroken run of errors reaches
      the limit. */
  lemma ErrorLimitIsExact(p: Plan, tr: Trace, i: int)
    requires Resolved(p) && IsRun(p, tr) && 0 <= i < |tr.ins|
    ensures tr.outs[i].action == Rollback && tr.outs[i].reason == AnalysisError <==>
              Consumes(p, tr.ins[i]) && tr.ins[i].round == Ran(Error)
              && |TrailingIn(History(tr, i), ERRORS)| == p.errorLimit
  {
    hide Next, Tally, History, Consumes;
    SoundRun(p, tr, i);
    assert Step(p, tr, i);
    FixedPlanIsEdited(p, tr);
    BudgetsFollowHistory(tr, i);
    TallyParts(History(tr, i));
    var inp := tr.ins[i];
    if tr.outs[i].action == Rollback {
      RollbackCauses(p, inp);
    }
    if Consumes(p, inp) && inp.round == Ran(Error) {
      ErroredRound(p, inp);
    }
  }

  lemma ErroredRound(p: Plan, inp: Input)
    requires Resolved(p) && Sound(p, inp.st, inp.now) && Consumes(p, inp) && inp.round == Ran(Error)
    ensures var out, errors := Next(p, inp), Next(p, inp).st.counters.consecErr;
      && 1 <= errors <= p.errorLimit && out.reason == AnalysisError
      && out.action == if errors == p.errorLimit then Rollback else Wait
  {
    hide Observe, Decide, Consumes;
    ConsumedRound(p, inp);
    ContinuedAttempt(p, inp);
  }

  /** The inconclusive budget: an unclear round is waited out until the limit-th since the
      last pass, failure or reset, errors between them notwithstanding; then the policy
      decides. Only the policy that says so rolls back for it, and never earlier. */
  lemma InconclusiveLimitIsExact(p: Plan, tr: Trace, i: int)
    requires Resolved(p) && IsRun(p, tr) && 0 <= i < |tr.ins|
    ensures var unclear := Count(TrailingIn(History(tr, i), UNUSABLE), Round(Inconclusive));
            var out := tr.outs[i];
            && (Consumes(p, tr.ins[i]) && tr.ins[i].round == Ran(Inconclusive) ==>
                  && 1 <= unclear
                  && (unclear < p.inconclusiveLimit || p.onInconclusive == HoldOn ==>
                        out.action == Wait && out.reason == AnalysisInconclusive)
                  && (unclear >= p.inconclusiveLimit && p.onInconclusive == RollbackOn ==>
                        unclear == p.inconclusiveLimit && out.action == Rollback && out.reason == AnalysisInconclusive)
                  && (unclear >= p.inconclusiveLimit && p.onInconclusive == PromoteOn ==>
                        unclear == p.inconclusiveLimit && out.action == Promote))
            && (out.action == Rollback && out.reason == AnalysisInconclusive ==>
                  && Consumes(p, tr.ins[i]) && tr.ins[i].round == Ran(Inconclusive)
                  && p.onInconclusive == RollbackOn && unclear == p.inconclusiveLimit)
  {
    hide Next, Tally, History, Consumes;
    SoundRun(p, tr, i);
    assert Step(p, tr, i);
    FixedPlanIsEdited(p, tr);
    BudgetsFollowHistory(tr, i);
    TallyUnclear(History(tr, i));
    var inp := tr.ins[i];
    if tr.outs[i].action == Rollback {
      RollbackCauses(p, inp);
    }
    if Consumes(p, inp) && inp.round == Ran(Inconclusive) {
      UnclearRound(p, inp);
    }
  }

  lemma UnclearRound(p: Plan, inp: Input)
    requires Resolved(p) && Sound(p, inp.st, inp.now) && Consumes(p, inp) && inp.round == Ran(Inconclusive)
    ensures var out, unclear := Next(p, inp), Next(p, inp).st.counters.consecInconcl;
      && 1 <= unclear && (p.onInconclusive == HoldOn || unclear <= p.inconclusiveLimit)
      && (unclear < p.inconclusiveLimit || p.onInconclusive == HoldOn ==>
            out.action == Wait && out.reason == AnalysisInconclusive)
      && (unclear >= p.inconclusiveLimit && p.onInconclusive == RollbackOn ==>
            out.action == Rollback && out.reason == AnalysisInconclusive)
      && (unclear >= p.inconclusiveLimit && p.onInconclusive == PromoteOn ==> out.action == Promote)
  {
    hide Observe, Decide, Consumes;
    ConsumedRound(p, inp);
    ContinuedAttempt(p, inp);
  }

  /** A provider that never answers: with nothing but error rounds and readiness
      resets behind it, the k-th round since the last reset abandons the attempt exactly
      when k is the limit. */
  lemma OutageEndsAtTheLimit(p: Plan, tr: Trace, i: int)
    requires Resolved(p) && IsRun(p, tr) && 0 <= i < |tr.ins|
    requires Consumes(p, tr.ins[i])
    requires forall k :: 0 <= k < |History(tr, i)| ==> History(tr, i)[k] in {Reset, Round(Error)}
    ensures var rounds := |TrailingIn(History(tr, i), ERRORS)|;
      && 1 <= rounds <= p.errorLimit
      && (tr.outs[i].action == Rollback <==> rounds == p.errorLimit)
      && tr.outs[i].reason == AnalysisError
  {
    hide Next, Tally, Consumes;
    SoundRun(p, tr, i);
    assert Step(p, tr, i);
    var es, inp := History(tr, i), tr.ins[i];
    ConsumedRound(p, inp);
    assert es[|es| - 1] == Round(inp.round.verdict);
    FixedPlanIsEdited(p, tr);
    BudgetsFollowHistory(tr, i);
    TallyParts(es);
    ErroredRound(p, inp);
  }

  // ---- Every attempt ends ------------------------------------------------

  /** Rungs still to pass; none once every check has passed. */
  function RungsLeft(p: Plan, st: State): int { if st.phase == Paused then 0 else |p.weights| - st.step }

  function FailuresLeft(p: Plan, st: State): int { p.failureThreshold - st.counters.failed }

  function InconclusivesLeft(p: Plan, st: State): int { p.inconclusiveLimit - st.counters.consecInconcl }

  function ErrorsLeft(p: Plan, st: State): int { p.errorLimit - st.counters.consecErr }

  /** The lexicographic order on (rungs + failures, inconclusives, errors) left. */
  predicate Closer(p: Plan, s: State, t: State)
  {
    var a, b := RungsLeft(p, t) + FailuresLeft(p, t), RungsLeft(p, s) + FailuresLeft(p, s);
    || a < b
    || (a == b && InconclusivesLeft(p, t) < InconclusivesLeft(p, s))
    || (a == b && InconclusivesLeft(p, t) == InconclusivesLeft(p, s) && ErrorsLeft(p, t) < ErrorsLeft(p, s))
  }

  /** A consumed round that does not end the attempt brings its end closer. */
  lemma ConsumedRoundIsProgress(p: Plan, inp: Input)
    requires Resolved(p) && p.onInconclusive != HoldOn && Sound(p, inp.st, inp.now)
    requires Consumes(p, inp) && IsActive(Next(p, inp).st.phase)
    ensures Closer(p, inp.st, Next(p, inp).st)
  {
  }

  /** A bound on the rounds an attempt at this position can still consume. */
  function Fuel(p: Plan, st: State): int
  {
    (RungsLeft(p, st) + FailuresLeft(p, st)) * (p.inconclusiveLimit * p.errorLimit)
    + InconclusivesLeft(p, st) * p.errorLimit + ErrorsLeft(p, st)
  }

  /** The numeric bound decreases along the lexicographic order. */
  lemma FuelDecreases(p: Plan, s: State, t: State)
    requires Resolved(p) && Closer(p, s, t)
    requires 1 <= InconclusivesLeft(p, s) <= p.inconclusiveLimit && 1 <= InconclusivesLeft(p, t) <= p.inconclusiveLimit
    requires 1 <= ErrorsLeft(p, s) <= p.errorLimit && 1 <= ErrorsLeft(p, t) <= p.errorLimit
    ensures Fuel(p, t) < Fuel(p, s)
  {
    Lexicographic(RungsLeft(p, s) + FailuresLeft(p, s), InconclusivesLeft(p, s), ErrorsLeft(p, s),
                  RungsLeft(p, t) + FailuresLeft(p, t), InconclusivesLeft(p, t), ErrorsLeft(p, t),
                  p.inconclusiveLimit, p.errorLimit);
  }

  lemma Lexicographic(a: int, b: int, c: int, a': int, b': int, c': int, m: int, n: int)
    requires 1 <= b <= m && 1 <= b' <= m && 1 <= c <= n && 1 <= c' <= n
    requires a' < a || (a' == a && (b' < b || (b' == b && c' < c)))
    ensures a' * (m * n) + b' * n + c' < a * (m * n) + b * n + c
  {
    if a' < a {
      ScaleMonotone(a', a - 1, m * n);
      ScaleMonotone(b', m, n);
      ScaleMonotone(1, b, n);
    } else if b' < b {
      ScaleMonotone(b', b - 1, n);
    }
  }

  /** No readiness is lost on this pass once the evidence clock runs. */
  predicate Steady(p: Plan, inp: Input) { inp.st.availableSince != Never ==> !Resets(p, inp) }

  lemma UnconsumedPassKeepsFuel(p: Plan, inp: Input)
    requires Resolved(p) && Sound(p, inp.st, inp.now) && Steady(p, inp) && !Consumes(p, inp)
    requires Continues(Next(p, inp)) && IsActive(Next(p, inp).st.phase)
    ensures Fuel(p, Next(p, inp).st) == Fuel(p, inp.st)
  {
    hide Split, RealizedWeight, Consumes, Analyse, Fuel;
    UnconsumedPass(p, inp);
    assert Next(p, inp).st.counters == inp.st.counters && Next(p, inp).st.step == inp.st.step;
    assert Next(p, inp).st.phase == Paused <==> inp.st.phase == Paused by { PausedIsKept(p, inp); }
    SameFuel(p, inp.st, Next(p, inp).st);
  }

  lemma PausedIsKept(p: Plan, inp: Input)
    requires Sound(p, inp.st, inp.now) && Steady(p, inp) && !Consumes(p, inp)
    requires Continues(Next(p, inp)) && IsActive(Next(p, inp).st.phase)
    ensures Next(p, inp).st.phase == Paused <==> inp.st.phase == Paused
  {
    hide Split, RealizedWeight, Analyse;
    var o := Observe(p, inp);
    if o.st.phase in {Waiting, Progressing} && !o.aborted && o.st.revision == o.target {
      AnalysisContinues(p, o);
      UnconsumedAnalysis(p, o);
    }
  }

  lemma SameFuel(p: Plan, s: State, t: State)
    requires s.counters == t.counters && s.step == t.step && (s.phase == Paused <==> t.phase == Paused)
    ensures Fuel(p, s) == Fuel(p, t)
  {
  }

  /** How many of the passes a+1 .. b consumed a round. */
  ghost function Rounds(p: Plan, tr: Trace, a: int, b: int): nat
    requires 0 <= a <= b < |tr.ins|
    decreases b
  {
    if a == b then 0 else Rounds(p, tr, a, b - 1) + if Consumes(p, tr.ins[b]) then 1 else 0
  }

  /** The passes a .. b belong to one attempt, still undecided after pass b. */
  ghost predicate OneAttempt(tr: Trace, a: int, b: int)
    requires 0 <= a <= b < |tr.outs|
  {
    && (forall i :: a <= i <= b ==> InFlight(tr.outs[i].st))
    && (forall i :: a < i <= b ==> Continues(tr.outs[i]))
  }

  /** Passes a .. b are one attempt from its start on, still undecided after pass b. */
  ghost predicate OpenAttempt(p: Plan, tr: Trace, a: int, b: int)
  {
    IsRun(p, tr) && 0 <= a <= b < |tr.ins| && OneAttempt(tr, a, b) && tr.outs[a].action == Start
  }

  lemma {:induction false} RoundsBurnFuel(p: Plan, tr: Trace, a: int, b: int)
    requires Resolved(p) && p.onInconclusive != HoldOn && IsRun(p, tr)
    requires 0 <= a <= b < |tr.ins| && OneAttempt(tr, a, b)
    requires forall i :: a < i <= b ==> Steady(p, tr.ins[i])
    ensures Rounds(p, tr, a, b) + Fuel(p, tr.outs[b].st) <= Fuel(p, tr.outs[a].st)
    decreases b
  {
    hide Observe, Fuel, Consumes, Decide, Resets;
    if a < b {
      RoundsBurnFuel(p, tr, a, b - 1);
      SoundRun(p, tr, b);
      assert Step(p, tr, b);
      assert InFlight(tr.outs[b].st) && Continues(tr.outs[b]) && Steady(p, tr.ins[b]);
      ContinuedAttempt(p, tr.ins[b]);
      SameFuel(p, tr.outs[b - 1].st, tr.ins[b].st);
      if Consumes(p, tr.ins[b]) {
        ConsumedRoundIsProgress(p, tr.ins[b]);
        FuelDecreases(p, tr.ins[b].st, tr.outs[b].st);
      } else {
        UnconsumedPassKeepsFuel(p, tr.ins[b]);
      }
    }
  }

  /** More rounds than a steady attempt can consume. */
  function RoundBound(p: Plan): int
  {
    (|p.weights| + p.failureThreshold + 1) * (p.inconclusiveLimit * p.errorLimit) + p.errorLimit
  }

  /** Every attempt ends: while it keeps its readiness and unclear rounds are not
      simply waited out, it stays undecided for at most this many rounds. */
  lemma AttemptsEnd(p: Plan, tr: Trace, a: int, b: int)
    requires Resolved(p) && p.onInconclusive != HoldOn && IsRun(p, tr)
    requires 0 <= a <= b < |tr.ins| && OneAttempt(tr, a, b)
    requires forall i :: a < i <= b ==> Steady(p, tr.ins[i])
    ensures Rounds(p, tr, a, b) < RoundBound(p)
  {
    RoundsBurnFuel(p, tr, a, b);
    SoundRun(p, tr, a);
    SoundRun(p, tr, b);
    FuelBounds(p, tr.outs[a].st, tr.ins[a].now);
    FuelBounds(p, tr.outs[b].st, tr.ins[b].now);
  }

  /** The range of a three-digit number in bases `m` and `n`. */
  lemma DigitRange(a: int, b: int, c: int, top: int, m: int, n: int)
    requires 1 <= a <= top && 1 <= b <= m && 1 <= c <= n
    ensures 0 < a * (m * n) + b * n + c <= (top + 1) * (m * n) + n
  {
    ScaleMonotone(1, m, n);
    ScaleMonotone(1, a, m * n);
    ScaleMonotone(a, top, m * n);
    ScaleMonotone(1, b, n);
    ScaleMonotone(b, m, n);
  }

  lemma FuelBounds(p: Plan, st: State, t: int)
    requires Resolved(p) && p.onInconclusive != HoldOn && Sound(p, st, t) && IsActive(st.phase)
    ensures 0 < Fuel(p, st)
    ensures Fuel(p, st) <= RoundBound(p)
  {
    hide Split, RealizedWeight;
    DigitRange(RungsLeft(p, st) + FailuresLeft(p, st), InconclusivesLeft(p, st), ErrorsLeft(p, st),
               |p.weights| + p.failureThreshold, p.inconclusiveLimit, p.errorLimit);
  }
}
