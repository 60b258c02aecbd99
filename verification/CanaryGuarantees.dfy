/** What every single decision of the state machine guarantees, whatever position it
    starts from (internal/canary/state.go:378-421, 431-541, 592-670, 823-880). */
module CanaryGuarantees {
  import opened Verdicts
  import opened Weights
  import opened CanaryMachine
  import opened CanaryRuns
  import opened Readiness
  import opened AttemptEvidence

  /** The rejection record changes only by a rollback, which rejects the candidate. */
  lemma OnlyRollbackRejects(p: Plan, inp: Input)
    ensures Next(p, inp).st.failed == if Next(p, inp).action == Rollback then inp.st.revision else inp.st.failed
  {
    hide Split, RealizedWeight, Analyse, Observe;
    ObserveKeepsIdentity(p, inp);
    AnalysisRejects(p, Observe(p, inp));
  }

  lemma AnalysisRejects(p: Plan, o: Input)
    ensures Analyse(p, o).st.failed == if Analyse(p, o).action == Rollback then o.st.revision else o.st.failed
  {
  }

  /** Along an increasing ladder, a candidate that is in flight has pods, and one
      without pods has no clock, no spent budget and no rung: capacity is a
      prerequisite, not progress. */
  lemma InFlightHasPods(p: Plan, inp: Input)
    requires Resolved(p) && StrictlyIncreasing(p.weights) && Sound(p, inp.st, inp.now)
    requires inp.total >= 0 && IsActive(Next(p, inp).st.phase)
    ensures var out := Next(p, inp);
      if out.st.startedAt != Never then out.canary > 0
      else out == CapacityHold(p, inp) && CountsAt(p, inp, 0).canary == 0
  {
    hide Split, RealizedWeight, Observe, Decide;
    var out, first := Next(p, inp), WeightAt(p, 0);
    PodsOrNoClock(p, inp);
    if out.st.startedAt != Never {
      HeldCounts(p, inp);
      if out.action != Start {
        StepNeverDrops(p, inp);
        SoundStep(p, inp, inp.now);
        ContinuedAttempt(p, inp);
        var from, to := WeightAt(p, inp.st.step), WeightAt(p, out.st.step);
        SplitMonotone(inp.total, from, inp.total, to);
      }
    } else if CountsAt(p, inp, 0).canary != 0 {
      SplitMonotone(inp.total, first, inp.total, WeightAt(p, inp.st.step));
    }
  }

  lemma PodsOrNoClock(p: Plan, inp: Input)
    requires Resolved(p) && Sound(p, inp.st, inp.now) && IsActive(Next(p, inp).st.phase)
    ensures var out := Next(p, inp);
      if out.st.startedAt == Never then
        && out == CapacityHold(p, inp)
        && (CountsAt(p, inp, 0).canary == 0 || (IsActive(inp.st.phase) && CountsAt(p, inp, inp.st.step).canary == 0))
      else if out.action == Start then CountsAt(p, inp, 0).canary != 0 && out.st.step == 0
      else IsActive(inp.st.phase) && CountsAt(p, inp, inp.st.step).canary != 0
  {
    hide Split, RealizedWeight, Analyse, Observe;
    var o := Observe(p, inp);
    ObserveKeeps(p, inp);
    ObserveKeepsIdentity(p, inp);
    AnalysisGuards(p, o);
    SameCounts(p, o, inp, 0);
    SameCounts(p, o, inp, inp.st.step);
    PausedHasPods(p, inp);
  }

  lemma AnalysisGuards(p: Plan, o: Input)
    ensures var out, pods := Analyse(p, o), CountsAt(p, o, o.st.step).canary;
      if pods == 0 then out == CapacityHold(p, o)
      else if o.st.startedAt == Never then out == Begun(p, o)
      else out.st.startedAt == o.st.startedAt && out.action != Start
  {
  }

  lemma PausedHasPods(p: Plan, inp: Input)
    ensures var o := Observe(p, inp);
      o.st.phase == Paused && o.st.revision == o.target ==> CountsAt(p, inp, inp.st.step).canary > 0
  {
  }

  /** The weights reported are those of the counts decided, and these are the split of the
      rung's own weight. */
  lemma WeightsAreHonest(p: Plan, inp: Input)
    requires Resolved(p) && Coherent(inp.st)
    ensures var out := Next(p, inp);
      if InFlight(out.st) then
        && out.st.step >= 0 && out.desiredWeight == RungWeight(p, out.st.step)
        && Counts(out.primary, out.canary) == Split(inp.total, RungWeight(p, out.st.step))
        && out.realizedWeight == RealizedWeight(out.primary, out.canary)
      else
        && out.primary == inp.total && out.canary == 0
        && out.desiredWeight == out.realizedWeight == (if out.action == Promote then 100 else 0)
  {
    hide Split, RealizedWeight, Analyse, Observe, CountsAt;
    var o, out := Observe(p, inp), Next(p, inp);
    ObserveKeeps(p, inp);
    ObserveKeepsIdentity(p, inp);
    HonestAnalysis(p, o);
    SameCounts(p, o, inp, out.st.step);
    CoherentStep(p, inp);
    if InFlight(out.st) {
      SameRung(p, inp.(st := out.st));
      SameCounts(p, inp, inp.(st := out.st), out.st.step);
    }
  }

  lemma HonestAnalysis(p: Plan, o: Input)
    ensures var out := Analyse(p, o);
      if InFlight(out.st) then
        && out.desiredWeight == WeightAt(p, out.st.step)
        && Counts(out.primary, out.canary) == CountsAt(p, o, out.st.step)
        && out.realizedWeight == RealizedWeight(out.primary, out.canary)
      else
        && out.primary == o.total && out.canary == 0
        && out.desiredWeight == out.realizedWeight == (if out.action == Promote then 100 else 0)
  {
    hide Split, RealizedWeight, Apply, CountsAt;
  }

  /** From 65 replicas on, the share a candidate in flight really gets is within a point
      of what its rung asks for. */
  lemma ExposureIsAsRequested(p: Plan, inp: Input)
    requires Resolved(p) && Sound(p, inp.st, inp.now) && inp.total >= 65 && InFlight(Next(p, inp).st)
    requires forall k :: 0 <= k < |p.weights| ==> 1 <= p.weights[k] <= 100
    ensures !IsQuantized(Next(p, inp).desiredWeight, Next(p, inp).realizedWeight)
  {
    hide Split, RealizedWeight, Observe, Decide, IsQuantized;
    WeightsAreHonest(p, inp);
    LargeFleetIsNotQuantized(inp.total, RungWeight(p, Next(p, inp).st.step));
  }

  /** When to come back. A candidate that warms up is looked at when its window ends, one
      that was measured an interval after its last round or in a second if that is over;
      otherwise an interval from now, or on a watch alone where only the cluster or an
      operator can change anything. */
  lemma TimerIsExact(p: Plan, inp: Input)
    requires Resolved(p)
    ensures var out, st := Next(p, inp), Next(p, inp).st;
      out.requeueAfter ==
        if out.action in {Nothing, Rollback, Pause} then 0
        else if out.action != Wait || st.startedAt == Never || st.availableSince == Never then p.interval
        else if inp.now < st.availableSince.sec + p.initialDelay + p.window then
          st.availableSince.sec + p.initialDelay + p.window - inp.now
        else if st.lastAnalysis == Never then p.interval
        else if inp.now < st.lastAnalysis.sec + p.interval then st.lastAnalysis.sec + p.interval - inp.now
        else 1
  {
    hide Split, RealizedWeight, Analyse, Observe;
    ObserveKeeps(p, inp);
    AnalysisTimer(p, Observe(p, inp));
  }

  /** So a timer is asked for exactly when nothing else would wake the controller. */
  lemma TimerIsSet(p: Plan, inp: Input)
    requires Resolved(p)
    ensures Next(p, inp).requeueAfter >= 0
    ensures Next(p, inp).requeueAfter > 0 <==> Next(p, inp).action in {Start, Wait, Advance, Promote}
  {
    hide Next;
    TimerIsExact(p, inp);
    ActionFitsPhase(p, inp);
  }

  lemma AnalysisTimer(p: Plan, o: Input)
    requires Resolved(p)
    ensures var out, st := Analyse(p, o), Analyse(p, o).st;
      out.requeueAfter ==
        if out.action in {Nothing, Rollback, Pause} then 0
        else if out.action != Wait || st.startedAt == Never || st.availableSince == Never then p.interval
        else if o.now < st.availableSince.sec + p.initialDelay + p.window then
          st.availableSince.sec + p.initialDelay + p.window - o.now
        else if st.lastAnalysis == Never then p.interval
        else if o.now < st.lastAnalysis.sec + p.interval then st.lastAnalysis.sec + p.interval - o.now
        else 1
  {
    hide Split, RealizedWeight, Apply;
  }

  /** A candidate that is waited for counts as waiting exactly until its clock runs. */
  lemma WaitingUntilReady(p: Plan, inp: Input)
    requires Next(p, inp).action == Wait
    ensures Next(p, inp).st.phase == (if Next(p, inp).st.availableSince == Never then Waiting else Progressing)
  {
    hide Split, RealizedWeight, Analyse, Observe;
    AnalysisWaits(p, Observe(p, inp));
  }

  lemma AnalysisWaits(p: Plan, o: Input)
    ensures Analyse(p, o).action == Wait ==>
      Analyse(p, o).st.phase == if Analyse(p, o).st.availableSince == Never then Waiting else Progressing
  {
    hide Split, RealizedWeight, Apply;
  }

  /** Without a ladder a new target is promoted at once, and a candidate in flight whose
      target changes is not replaced. */
  lemma EmptyLadder(p: Plan, inp: Input)
    requires p.weights == [] && inp.target != Unset && !inp.aborted
    ensures inp.st.phase in {Idle, RollingBack} && inp.stable != Unset && inp.target !in {inp.stable, inp.st.failed} ==>
      var out := Next(p, inp);
      && out.action == Promote && out.st.phase == Promoting && out.primary == inp.total && out.canary == 0
      && out.st.revision == inp.target && out.st.stable == inp.stable && out.st.failed == inp.st.failed
      && out.st.startedAt == At(inp.now) && out.st.step == 0
    ensures IsActive(inp.st.phase) && inp.st.revision != inp.target ==>
      Next(p, inp).action == Wait && Next(p, inp).canary == 0 && Next(p, inp).st.startedAt == Never
  {
  }

  /** What a decision other than a rollback is explained by. */
  lemma ReasonIsExact(p: Plan, inp: Input)
    requires Resolved(p)
    ensures var out := Next(p, inp);
      match out.action
      case Start => out.reason == CanaryProgressing
      case Advance => out.reason == ChecksPassed
      case Promote => out.reason == CanaryPromoted
      case Pause => out.reason == AwaitingApproval
      case Wait =>
        if out.st.startedAt == Never then out.reason == InsufficientReplicas
        else if !Consumes(p, inp) then out.reason == CanaryProgressing
        else out.reason == (if inp.round == Ran(Error) then AnalysisError
                            else if inp.round == Ran(Inconclusive) then AnalysisInconclusive
                            else ChecksFailed)
      case Nothing =>
        out.reason == (if inp.st.phase == Promoting && inp.st.revision == inp.target then CanaryPromoted
                       else if inp.target != Unset && inp.target == inp.st.failed then CanaryRolledBack
                       else if inp.target == inp.stable || inp.target == Unset then CanaryNotRunning
                       else NoLastGoodRevision)
      case _ => true
  {
    hide Split, RealizedWeight, Analyse, Observe, Consumes;
    ObserveKeeps(p, inp);
    ObserveKeepsIdentity(p, inp);
    var o := Observe(p, inp);
    if o.st.phase in {Waiting, Progressing} && !o.aborted && o.st.revision == o.target {
      AnalysisReason(p, o);
      AnalysisActs(p, o);
      ConsumedAnalysis(p, inp);
    }
  }

  /** Where the analysis looks at its round. */
  predicate LooksAtRound(p: Plan, o: Input)
  {
    && CountsAt(p, o, o.st.step).canary != 0 && o.st.startedAt != Never
    && o.round.Ran? && DueForAnalysis(o.now, p, o.st)
  }

  lemma AnalysisReason(p: Plan, o: Input)
    requires Resolved(p)
    ensures var out := Analyse(p, o);
      match out.action
      case Start => out.reason == CanaryProgressing
      case Advance => out.reason == ChecksPassed
      case Promote => out.reason == CanaryPromoted
      case Pause => out.reason == AwaitingApproval
      case Wait =>
        if out.st.startedAt == Never then out.reason == InsufficientReplicas
        else if !LooksAtRound(p, o) then out.reason == CanaryProgressing
        else out.reason == (if o.round == Ran(Error) then AnalysisError
                            else if o.round == Ran(Inconclusive) then AnalysisInconclusive
                            else ChecksFailed)
      case _ => true
  {
    hide Split, RealizedWeight, Apply;
  }

  lemma ConsumedAnalysis(p: Plan, inp: Input)
    requires Resolved(p)
    ensures var o := Observe(p, inp);
      && (o.st.phase in {Waiting, Progressing} && !o.aborted && o.st.revision == o.target ==>
            (Consumes(p, inp) <==> LooksAtRound(p, o)))
      && (Consumes(p, inp) ==> o.round == inp.round)
  {
    hide Split, RealizedWeight;
  }

  /** An abort outranks everything else, an approval in the same pass included, and
      nothing else is ever reported as one. */
  lemma AbortWins(p: Plan, inp: Input)
    ensures Next(p, inp).reason == CanaryAborted <==> inp.aborted && IsActive(inp.st.phase)
    ensures inp.aborted && IsActive(inp.st.phase) ==>
      var out := Next(p, inp);
      out.action == Rollback && out.primary == inp.total && out.canary == 0 && out.st.failed == inp.st.revision
  {
    hide Split, RealizedWeight, Analyse, Observe;
    ObserveKeeps(p, inp);
    ObserveKeepsIdentity(p, inp);
    AnalysisIsNoAbort(p, Observe(p, inp));
  }

  lemma AnalysisIsNoAbort(p: Plan, o: Input)
    ensures Analyse(p, o).reason != CanaryAborted
  {
    hide Split, RealizedWeight;
  }

  // ---- The manual gate ---------------------------------------------------

  /** The evidence of this in-flight attempt is lost at or past its deadline. */
  predicate LostTooLate(p: Plan, inp: Input)
  {
    Resets(p, inp) && Overdue(p, inp)
  }

  /** Where a pause goes. It lasts exactly while the target and the candidate's readiness
      stay as they were and no operator acts. */
  lemma PauseEndsIff(p: Plan, inp: Input)
    requires Resolved(p) && Sound(p, inp.st, inp.now) && inp.st.phase == Paused
    ensures var out := Next(p, inp);
      && (out.st.phase == Paused <==>
            !inp.aborted && inp.st.revision == inp.target && !Resets(p, inp) && !inp.approved)
      && (out.st.phase == Promoting <==>
            !inp.aborted && inp.st.revision == inp.target && !Resets(p, inp) && inp.approved)
      && (out.st.phase == RollingBack <==> inp.aborted || LostTooLate(p, inp))
  {
    hide Split, RealizedWeight;
  }

  /** With readiness and target unchanged and no abort, a pause moves only by approval,
      and nothing but the phase moves. */
  lemma PauseEndsByApproval(p: Plan, inp: Input)
    requires Resolved(p) && Sound(p, inp.st, inp.now)
    requires inp.st.phase == Paused && inp.st.revision == inp.target && !Resets(p, inp) && !inp.aborted
    ensures var out := Next(p, inp);
      && out.action == (if inp.approved then Promote else Pause)
      && out.st == inp.st.(phase := if inp.approved then Promoting else Paused, scopeReady := out.st.scopeReady)
  {
  }

  /** No operator is needed: a pod that stops being ready takes a paused rollout back to
      measuring. */
  lemma PauseCanEndUnattended() returns (p: Plan, inp: Input)
    ensures Resolved(p) && Sound(p, inp.st, inp.now) && inp.st.phase == Paused && inp.st.revision == inp.target
    ensures !inp.aborted && !inp.approved
    ensures Next(p, inp).action == Wait && Next(p, inp).st.phase == Waiting
  {
    p, inp := APlan(), APause(200);
  }

  /** Losing readiness once the deadline has passed rolls the attempt back, on any rung
      and however far it had come. */
  lemma LateReadinessLossRejects(p: Plan, inp: Input)
    requires Resolved(p) && LostTooLate(p, inp)
    ensures var out := Next(p, inp);
      && out.action == Rollback && out.st.failed == inp.target
      && out.reason == if inp.aborted then CanaryAborted else DeadlineExceeded
  {
    hide Split, RealizedWeight;
  }

  /** So one unready pod can reject a release that has passed every check and only awaits
      its approval, in the very pass that brings the approval. */
  lemma ApprovalCanComeTooLate() returns (p: Plan, inp: Input)
    ensures Resolved(p) && Sound(p, inp.st, inp.now) && inp.st.phase == Paused && inp.st.revision == inp.target
    ensures !inp.aborted && inp.approved
    ensures Next(p, inp).action == Rollback && Next(p, inp).st.failed == inp.target
  {
    p, inp := APlan(), APause(600).(approved := true);
    LateReadinessLossRejects(p, inp);
  }

  function APlan(): Plan { Plan([50], 30, 60, 60, 3, 5, 5, HoldOn, true, 600) }

  /** A canary of two pods, paused since second 120 and one pod short at `now`. */
  function APause(now: int): Input
  {
    var target := ReadinessTarget(0, 50, 4, 2, 1, Uid(1));
    Input(now, State(Paused, Rev(1), Rev(0), Unset, true, 0, At(0), target, At(120), At(0), ZERO), Rev(1), Rev(0), 4,
          Deployment(Uid(1), Rev(1), 1, 1, 2, 2, 1, 1), NoRound, false, false)
  }

  // ---- Quiescence --------------------------------------------------------

  /** A pass on which nothing happens outside: no signal and no round. */
  predicate Calm(inp: Input) { !inp.aborted && !inp.approved && inp.round == NoRound }

  /** The position after one more pass under the same observations. */
  function Again(p: Plan, inp: Input, st: State): State { Next(p, inp.(st := st)).st }

  /** Positions that a further calm pass does not move. */
  predicate Settled(p: Plan, inp: Input, st: State) { Again(p, inp, st) == st }

  /** Documentation of Next calls repeating a pass a no-op. It takes two passes: the
      first may decide, the second binds readiness to what was decided, and from then on
      nothing moves until an observation or the clock does. */
  lemma CalmPassesSettle(p: Plan, inp: Input)
    requires Calm(inp) && StrictlyIncreasing(p.weights) && inp.total >= 0
    ensures Settled(p, inp, Again(p, inp, Again(p, inp, inp.st)))
  {
    hide Split, RealizedWeight, Observe, Decide, Resting, Delivering, Bound;
    var one := Again(p, inp, inp.st);
    FirstPass(p, inp);
    SecondPass(p, inp, one);
    Calmed(p, inp, Again(p, inp, one));
  }

  /** One pass is not always enough: the pass after a start still moves the position. */
  lemma OnePassIsNotEnough() returns (p: Plan, inp: Input)
    ensures Resolved(p) && StrictlyIncreasing(p.weights) && Calm(inp) && inp.total >= 0
    ensures !Settled(p, inp, Again(p, inp, inp.st))
  {
    var none := Deployment(NoUid, Unset, 0, 0, 0, 0, 0, 0);
    p, inp := APlan(), Input(0, FRESH, Rev(1), Rev(0), 4, none, NoRound, false, false);
    assert Next(p, inp).action == Start;
    OnePassSettlesIff(p, inp);
  }

  /** One pass is enough exactly when it neither starts an attempt nor rolls one back. */
  lemma OnePassSettlesIff(p: Plan, inp: Input)
    requires Calm(inp) && StrictlyIncreasing(p.weights) && inp.total >= 0
    ensures Settled(p, inp, Again(p, inp, inp.st)) <==> Next(p, inp).action !in {Start, Rollback}
  {
    hide Split, RealizedWeight, Observe, Decide, Resting, Delivering, Bound;
    assert inp.(st := inp.st) == inp;
    var out := Next(p, inp);
    ActionFitsPhase(p, inp);
    FirstPass(p, inp);
    if out.action == Start {
      StartMovesAgain(p, inp);
    } else if out.action == Rollback {
      RollbackMovesAgain(p, inp, out.st);
    } else if AtFixpoint(p, inp, out.st) {
      Calmed(p, inp, out.st);
    } else {
      OnlyStartBegins(p, inp);
    }
  }

  predicate AtFixpoint(p: Plan, inp: Input, st: State)
  {
    Resting(inp, st) || Delivering(inp, st) || Bound(p, inp, st)
  }

  lemma Calmed(p: Plan, inp: Input, st: State)
    requires Calm(inp) && AtFixpoint(p, inp, st)
    ensures Settled(p, inp, st)
  {
  }

  /** At rest, with a reason to stay there. */
  predicate Resting(inp: Input, st: State)
  {
    && st == FRESH.(failed := st.failed)
    && (inp.target == st.failed || inp.target == inp.stable || inp.target == Unset || inp.stable == Unset)
  }

  /** Promoting the target, not yet stable. */
  predicate Delivering(inp: Input, st: State)
  {
    st.phase == Promoting && st.revision == inp.target && inp.stable != st.revision
  }

  /** In flight, with readiness already bound to this pass's observation, or held for
      capacity. */
  predicate Bound(p: Plan, inp: Input, st: State)
  {
    && IsActive(st.phase) && Observes(inp.(st := st))
    && (|| (st == CapacityHold(p, inp.(st := st)).st && CountsAt(p, inp.(st := st), 0).canary == 0)
        || (Observe(p, inp.(st := st)).st == st && Waits(p, inp.(st := st))))
  }

  /** An observed position that is waiting for time to pass. */
  predicate Waits(p: Plan, o: Input)
  {
    if o.st.phase == Paused then true
    else
      && CountsAt(p, o, o.st.step).canary != 0 && o.st.startedAt != Never && !PastDeadline(p, o)
      && (o.st.phase == if o.st.availableSince == Never then Waiting else Progressing)
  }

  lemma ObserveCalm(p: Plan, inp: Input)
    requires Calm(inp)
    ensures Calm(Observe(p, inp))
  {
  }

  /** One calm pass from anywhere settles, starts or rolls back. */
  lemma FirstPass(p: Plan, inp: Input)
    requires Calm(inp) && StrictlyIncreasing(p.weights) && inp.total >= 0
    ensures var one := Again(p, inp, inp.st);
      AtFixpoint(p, inp, one) || one == Begun(p, inp).st || (one.phase == RollingBack && one.failed == inp.target)
  {
    hide Split, RealizedWeight, Analyse, Observe, Bound;
    var o := Observe(p, inp);
    ObserveKeeps(p, inp);
    ObserveKeepsIdentity(p, inp);
    ObserveCalm(p, inp);
    if IsActive(o.st.phase) && o.st.revision == o.target {
      BoundPass(p, inp);
    } else if Again(p, inp, inp.st) == CapacityHold(p, inp).st && CountsAt(p, o, 0).canary == 0 {
      SameCounts(p, o, inp, 0);
      ShortIsBound(p, inp);
    }
  }

  lemma ShortIsBound(p: Plan, inp: Input)
    requires CountsAt(p, inp, 0).canary == 0
    ensures Bound(p, inp, CapacityHold(p, inp).st)
  {
  }

  /** One calm pass of an attempt at the target. */
  lemma BoundPass(p: Plan, inp: Input)
    requires Calm(inp) && StrictlyIncreasing(p.weights) && inp.total >= 0 && Observes(inp)
    ensures var one := Again(p, inp, inp.st);
      || Bound(p, inp, one)
      || (one == Begun(p, inp).st && inp.st.startedAt == Never)
      || (one.phase == RollingBack && one.failed == inp.target && PastDeadline(p, Observe(p, inp)))
  {
    hide Split, RealizedWeight, Observe, Bound;
    var o := Observe(p, inp);
    ObserveKeeps(p, inp);
    ObserveKeepsIdentity(p, inp);
    ObserveCalm(p, inp);
    if o.st.phase == Paused {
      KeptIsBound(p, inp, o.st);
    } else if CountsAt(p, o, o.st.step).canary == 0 {
      SplitMonotone(inp.total, WeightAt(p, 0), inp.total, WeightAt(p, inp.st.step));
      ShortIsBound(p, inp);
    } else if o.st.startedAt != Never && !PastDeadline(p, o) {
      KeptIsBound(p, inp, o.st.(phase := if o.st.availableSince == Never then Waiting else Progressing));
    }
  }

  lemma KeptIsBound(p: Plan, inp: Input, st: State)
    requires Observes(inp)
    requires var o := Observe(p, inp);
      if o.st.phase == Paused then st == o.st
      else && CountsAt(p, o, o.st.step).canary != 0 && o.st.startedAt != Never && !PastDeadline(p, o)
           && st == o.st.(phase := if o.st.availableSince == Never then Waiting else Progressing)
    ensures Bound(p, inp, st)
  {
  }

  /** Only a start leaves a fresh attempt behind. */
  lemma OnlyStartBegins(p: Plan, inp: Input)
    requires Calm(inp) && Next(p, inp).st == Begun(p, inp).st
    ensures Next(p, inp).action == Start
  {
    hide Split, RealizedWeight;
  }

  lemma StartBegins(p: Plan, inp: Input)
    requires Next(p, inp).action == Start
    ensures Next(p, inp).st == Begun(p, inp).st
  {
    hide Split, RealizedWeight, Analyse, Observe;
    ObserveKeeps(p, inp);
    ObserveKeepsIdentity(p, inp);
    AnalysisContinues(p, Observe(p, inp));
    AnalysisGuards(p, Observe(p, inp));
  }

  /** The pass after a start binds readiness to the candidate's Deployment. */
  lemma StartMovesAgain(p: Plan, inp: Input)
    requires Next(p, inp).action == Start
    ensures !Settled(p, inp, Next(p, inp).st)
  {
    hide Split, RealizedWeight, Observe, Decide;
    StartBegins(p, inp);
    BegunMoves(p, inp);
  }

  lemma BegunMoves(p: Plan, inp: Input)
    ensures !Settled(p, inp, Begun(p, inp).st)
  {
    hide Split, RealizedWeight;
  }

  /** The pass after a rollback clears what was in flight. */
  lemma RollbackMovesAgain(p: Plan, inp: Input, st: State)
    requires st.phase == RollingBack
    ensures !Settled(p, inp, st)
  {
  }

  lemma SecondPass(p: Plan, inp: Input, one: State)
    requires Calm(inp) && StrictlyIncreasing(p.weights) && inp.total >= 0
    requires AtFixpoint(p, inp, one) || one == Begun(p, inp).st || (one.phase == RollingBack && one.failed == inp.target)
    ensures AtFixpoint(p, inp, Again(p, inp, one))
  {
  }
}
