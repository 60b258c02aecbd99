/** The pure rollout state machine (internal/canary/state.go).

    Times are whole seconds, which is what status keeps; `Never` is Go's zero
    time. Revision hashes and Deployment UIDs are opaque identities, with `Unset`
    and `NoUid` standing for the empty string. Messages are not modelled. */
module CanaryMachine {
  import opened Verdicts
  import opened Weights

  datatype Revision = Unset | Rev(id: nat)

  datatype Uid = NoUid | Uid(n: nat)

  datatype Instant = Never | At(sec: int)

  datatype Phase = Idle | Waiting | Progressing | Paused | Promoting | RollingBack

  /** `Undecided` is the zero value: no state machine ran. */
  datatype Action = Undecided | Nothing | Start | Wait | Advance | Promote | Rollback | Pause

  datatype InconclusivePolicy = HoldOn | RollbackOn | PromoteOn

  datatype Reason =
    | Unexplained | CanaryAborted | CanaryProgressing | CanaryRolledBack | CanaryNotRunning
    | NoLastGoodRevision | CanaryPromoted | InsufficientReplicas | AwaitingApproval
    | DeadlineExceeded | AnalysisError | AnalysisInconclusive | ChecksFailed | ChecksPassed
    | ScopePending

  datatype Plan = Plan(
    weights: seq<int>, interval: int, initialDelay: int, window: int,
    failureThreshold: int, errorLimit: int, inconclusiveLimit: int,
    onInconclusive: InconclusivePolicy, requireApproval: bool, progressDeadline: int)

  /** The rung and Deployment incarnation whose readiness starts the evidence clock. */
  datatype ReadinessTarget = ReadinessTarget(
    step: int, weight: int, total: int, canary: int, generation: int, uid: Uid)

  const NO_TARGET := ReadinessTarget(0, 0, 0, 0, 0, NoUid)

  datatype State = State(
    phase: Phase, revision: Revision, stable: Revision, failed: Revision, scopeReady: bool,
    step: int, availableSince: Instant, readiness: ReadinessTarget,
    lastAnalysis: Instant, startedAt: Instant, counters: Counters)

  const FRESH := State(Idle, Unset, Unset, Unset, false, 0, Never, NO_TARGET, Never, Never, ZERO)

  datatype Deployment = Deployment(
    uid: Uid, revision: Revision, generation: int, observedGeneration: int,
    replicas: int, updated: int, ready: int, available: int)

  datatype MaybeRound = NoRound | Ran(verdict: Verdict)

  datatype Input = Input(
    now: int, st: State, target: Revision, stable: Revision, total: int,
    deployment: Deployment, round: MaybeRound, approved: bool, aborted: bool)

  datatype Output = Output(
    st: State, action: Action, desiredWeight: int, primary: int, canary: int,
    realizedWeight: int, requeueAfter: int, reason: Reason)

  predicate IsActive(phase: Phase) { phase == Waiting || phase == Progressing || phase == Paused }

  function WeightAt(p: Plan, step: int): int
  {
    if |p.weights| == 0 then 0
    else p.weights[Min(Max(step, 0), |p.weights| - 1)]
  }

  function CountsAt(p: Plan, inp: Input, step: int): Counts { Split(inp.total, WeightAt(p, step)) }

  // ---- Observe ----------------------------------------------------------

  function TargetOf(p: Plan, inp: Input): ReadinessTarget
  {
    ReadinessTarget(inp.st.step, WeightAt(p, inp.st.step), inp.total,
                    CountsAt(p, inp, inp.st.step).canary, inp.deployment.generation, inp.deployment.uid)
  }

  /** Every planned replica of the candidate's current generation is serving. */
  predicate FullyReady(p: Plan, inp: Input)
  {
    var count := CountsAt(p, inp, inp.st.step).canary;
    var d := inp.deployment;
    && count > 0 && d.revision == inp.st.revision && d.generation > 0 && d.uid != NoUid
    && d.observedGeneration >= d.generation
    && d.replicas == count && d.updated == count && d.ready == count && d.available == count
  }

  predicate Observes(inp: Input) { IsActive(inp.st.phase) && inp.st.revision == inp.target }

  /** This pass invalidates the evidence collected so far. */
  predicate Resets(p: Plan, inp: Input)
  {
    Observes(inp) && (TargetOf(p, inp) != inp.st.readiness || !FullyReady(p, inp))
  }

  function Observe(p: Plan, inp: Input): Input
  {
    if !Observes(inp) then inp
    else
      var st := inp.st;
      var target := TargetOf(p, inp);
      var scope := st.scopeReady && (st.readiness.uid == NoUid || st.readiness.uid == target.uid);
      var held := if Resets(p, inp) then
          st.(scopeReady := scope, readiness := target, availableSince := Never, lastAnalysis := Never,
              counters := ClearRuns(st.counters), phase := Waiting)
        else st.(scopeReady := scope);
      var timed := if FullyReady(p, inp) && held.availableSince == Never
        then held.(availableSince := At(inp.now)) else held;
      inp.(st := timed, round := if Resets(p, inp) then NoRound else inp.round)
  }

  // ---- Schedule ---------------------------------------------------------

  function Warmup(p: Plan): int { p.initialDelay + p.window }

  predicate DueForAnalysis(now: int, p: Plan, st: State)
  {
    && (st.phase == Progressing || st.phase == Waiting)
    && st.availableSince != Never
    && now >= st.availableSince.sec + Warmup(p)
    && (st.lastAnalysis == Never || now >= st.lastAnalysis.sec + p.interval)
  }

  function NextAnalysisIn(now: int, p: Plan, st: State): int
  {
    if st.lastAnalysis == Never then p.interval
    else
      var remaining := st.lastAnalysis.sec + p.interval - now;
      if remaining <= 0 then 1 else remaining
  }

  // ---- Next -------------------------------------------------------------

  function Next(p: Plan, inp: Input): Output { Decide(p, Observe(p, inp)) }

  /** The body of Next after its call to Observe. */
  function Decide(p: Plan, inp: Input): Output
  {
    var st := inp.st;
    if inp.aborted && IsActive(st.phase) then RollBack(inp, st, CanaryAborted)
    else if IsActive(st.phase) && st.revision != inp.target then
      if CountsAt(p, inp, 0).canary == 0 then CapacityHold(p, inp) else Begun(p, inp)
    else match st.phase
      case Promoting => Settle(p, inp)
      case Idle => Begin(p, inp)
      case RollingBack => Begin(p, inp)
      case Paused => AwaitApproval(p, inp)
      case Waiting => Analyse(p, inp)
      case Progressing => Analyse(p, inp)
  }

  function AtRest(inp: Input, reason: Reason): Output
  {
    Output(FRESH.(failed := inp.st.failed), Nothing, 0, inp.total, 0, 0, 0, reason)
  }

  function Promotion(p: Plan, inp: Input, st: State): Output
  {
    Output(st, Promote, 100, inp.total, 0, 100, p.interval, CanaryPromoted)
  }

  function Begin(p: Plan, inp: Input): Output
  {
    if inp.target != Unset && inp.target == inp.st.failed then AtRest(inp, CanaryRolledBack)
    else if inp.target == inp.stable || inp.target == Unset then AtRest(inp, CanaryNotRunning)
    else if inp.stable == Unset then AtRest(inp, NoLastGoodRevision)
    else if |p.weights| == 0 then
      Promotion(p, inp, FRESH.(phase := Promoting, revision := inp.target, stable := inp.stable,
                               failed := inp.st.failed, startedAt := At(inp.now)))
    else if CountsAt(p, inp, 0).canary == 0 then CapacityHold(p, inp)
    else Begun(p, inp)
  }

  /** capacityHold: no candidate exists, so no clock runs. */
  function CapacityHold(p: Plan, inp: Input): Output
  {
    Output(FRESH.(phase := Waiting, revision := inp.target, stable := inp.stable, failed := inp.st.failed),
           Wait, 0, inp.total, 0, 0, p.interval, InsufficientReplicas)
  }

  function Holding(p: Plan, inp: Input, st: State, action: Action, requeue: int, reason: Reason): Output
  {
    var c := CountsAt(p, inp, st.step);
    Output(st, action, WeightAt(p, st.step), c.primary, c.canary,
           RealizedWeight(c.primary, c.canary), requeue, reason)
  }

  /** start: a fresh attempt at rung zero. */
  function Begun(p: Plan, inp: Input): Output
  {
    Holding(p, inp, FRESH.(phase := Waiting, revision := inp.target, stable := inp.stable,
                           failed := inp.st.failed, startedAt := At(inp.now)),
            Start, p.interval, CanaryProgressing)
  }

  /** promoting: hold until the primary has converged on the winner. */
  function Settle(p: Plan, inp: Input): Output
  {
    if inp.st.revision != inp.target then Begin(p, inp)
    else if inp.stable == inp.st.revision then AtRest(inp, CanaryPromoted)
    else Promotion(p, inp, inp.st)
  }

  /** paused. */
  function AwaitApproval(p: Plan, inp: Input): Output
  {
    if inp.approved then Promotion(p, inp, inp.st.(phase := Promoting))
    else Holding(p, inp, inp.st, Pause, 0, AwaitingApproval)
  }

  predicate PastDeadline(p: Plan, inp: Input)
  {
    var st := inp.st;
    && st.lastAnalysis == Never && p.progressDeadline > 0
    && st.startedAt != Never && inp.now >= st.startedAt.sec + p.progressDeadline
    && (st.availableSince == Never || inp.now < st.availableSince.sec + Warmup(p))
  }

  function Analyse(p: Plan, inp: Input): Output
  {
    var st := inp.st;
    var c := CountsAt(p, inp, st.step);
    if c.canary == 0 then CapacityHold(p, inp)
    else if st.startedAt == Never then Begun(p, inp)
    else if PastDeadline(p, inp) then RollBack(inp, st, DeadlineExceeded)
    else if st.availableSince == Never then
      Holding(p, inp, st.(phase := Waiting), Wait, p.interval, CanaryProgressing)
    else if inp.now < st.availableSince.sec + Warmup(p) then
      Holding(p, inp, st.(phase := Progressing), Wait, st.availableSince.sec + Warmup(p) - inp.now, CanaryProgressing)
    else if inp.round == NoRound || !DueForAnalysis(inp.now, p, st) then
      Holding(p, inp, st.(phase := Progressing), Wait, NextAnalysisIn(inp.now, p, st), CanaryProgressing)
    else
      Judge(p, inp, st.(lastAnalysis := At(inp.now), counters := Apply(st.counters, inp.round.verdict)),
            inp.round.verdict)
  }

  /** The verdict switch of analyse, on a state whose counters include this round. */
  function Judge(p: Plan, inp: Input, st: State, v: Verdict): Output
  {
    match v
    case Error =>
      if st.counters.consecErr >= p.errorLimit then RollBack(inp, st, AnalysisError)
      else Holding(p, inp, st.(phase := Progressing), Wait, p.interval, AnalysisError)
    case Inconclusive =>
      if st.counters.consecInconcl >= p.inconclusiveLimit then Unclear(p, inp, st)
      else Holding(p, inp, st.(phase := Progressing), Wait, p.interval, AnalysisInconclusive)
    case Fail =>
      if st.counters.failed >= p.failureThreshold then RollBack(inp, st, CanaryRolledBack)
      else Holding(p, inp, st.(phase := Progressing), Wait, p.interval, ChecksFailed)
    case Pass => Climb(p, inp, st)
  }

  /** advance. */
  function Climb(p: Plan, inp: Input, st: State): Output
  {
    if st.step >= |p.weights| - 1 then
      if p.requireApproval then Holding(p, inp, st.(phase := Paused), Pause, 0, AwaitingApproval)
      else Promotion(p, inp, st.(phase := Promoting))
    else
      Holding(p, inp, st.(step := st.step + 1, phase := Waiting, availableSince := Never, lastAnalysis := Never),
              Advance, p.interval, ChecksPassed)
  }

  /** onInconclusive. */
  function Unclear(p: Plan, inp: Input, st: State): Output
  {
    match p.onInconclusive
    case RollbackOn => RollBack(inp, st, AnalysisInconclusive)
    case PromoteOn => Promotion(p, inp, st.(phase := Promoting))
    case HoldOn => Holding(p, inp, st.(phase := Progressing), Wait, p.interval, AnalysisInconclusive)
  }

  function RollBack(inp: Input, st: State, reason: Reason): Output
  {
    Output(st.(phase := RollingBack, failed := st.revision), Rollback, 0, inp.total, 0, 0, 0, reason)
  }

  // ---- What one pass does -----------------------------------------------

  /** This pass consumes its analysis round. */
  predicate Consumes(p: Plan, inp: Input)
  {
    var o := Observe(p, inp);
    && o.round.Ran? && !o.aborted && Observes(o)
    && CountsAt(p, o, o.st.step).canary != 0 && o.st.startedAt != Never
    && DueForAnalysis(o.now, p, o.st)
  }

  /** Observing twice is observing once. */
  lemma ObserveIdempotent(p: Plan, inp: Input)
    ensures Observe(p, Observe(p, inp)) == Observe(p, inp)
  {
  }

  /** Only the position and the round are ever touched by observing. */
  lemma ObserveKeeps(p: Plan, inp: Input)
    ensures Observe(p, inp) == inp.(st := Observe(p, inp).st, round := Observe(p, inp).round)
  {
  }

  /** A supplied round that is not consumed has no influence at all. */
  lemma UnconsumedRoundIsInvisible(p: Plan, inp: Input)
    requires !Consumes(p, inp)
    ensures Next(p, inp) == Next(p, inp.(round := NoRound))
  {
    hide Split, RealizedWeight;
    var blind := inp.(round := NoRound);
    assert Observe(p, blind) == Observe(p, inp).(round := NoRound);
  }

  /** The phase each action leaves behind. */
  predicate PhaseFits(action: Action, phase: Phase)
  {
    match action
    case Undecided => false
    case Nothing => phase == Idle
    case Start => phase == Waiting
    case Wait => phase == Waiting || phase == Progressing
    case Advance => phase == Waiting
    case Promote => phase == Promoting
    case Rollback => phase == RollingBack
    case Pause => phase == Paused
  }

  lemma ActionFitsPhase(p: Plan, inp: Input)
    ensures PhaseFits(Next(p, inp).action, Next(p, inp).st.phase)
  {
    hide Split, RealizedWeight, Analyse, Observe;
    var o := Observe(p, inp);
    AnalysisFitsPhase(p, o);
  }

  lemma AnalysisFitsPhase(p: Plan, o: Input)
    ensures PhaseFits(Analyse(p, o).action, Analyse(p, o).st.phase)
  {
    hide Split, RealizedWeight, Apply;
  }

  ghost predicate Divides(out: Output, total: int)
  {
    out.primary + out.canary == total && out.primary >= 0 && out.canary >= 0
  }

  /** Every decision divides exactly the replicas there are. */
  lemma SplitConserved(p: Plan, inp: Input)
    requires inp.total >= 0
    ensures Divides(Next(p, inp), inp.total)
  {
    hide Split, RealizedWeight;
    var o := Observe(p, inp);
    assert o.total == inp.total;
    if o.st.phase == Waiting || o.st.phase == Progressing {
      assert Divides(Analyse(p, o), inp.total);
    }
  }

  /** Waiting and Progressing are one position as far as any decision goes. */
  predicate SamePosition(s: State, t: State)
  {
    s == t || (s.phase in {Waiting, Progressing} && t.phase in {Waiting, Progressing} && s.(phase := t.phase) == t)
  }

  lemma SamePositionSameDecision(p: Plan, inp: Input, t: State)
    requires SamePosition(inp.st, t)
    ensures Next(p, inp) == Next(p, inp.(st := t))
    ensures forall now :: DueForAnalysis(now, p, inp.st) == DueForAnalysis(now, p, t)
  {
    hide Split, RealizedWeight;
    if inp.st != t {
      var o, o' := Observe(p, inp), Observe(p, inp.(st := t));
      assert o' == o.(st := o.st.(phase := o'.st.phase));
      PhaseBlindAnalysis(p, o, o'.st.phase);
    }
  }

  lemma PhaseBlindAnalysis(p: Plan, inp: Input, phase: Phase)
    requires phase in {Waiting, Progressing} && inp.st.phase in {Waiting, Progressing}
    ensures Analyse(p, inp) == Analyse(p, inp.(st := inp.st.(phase := phase)))
  {
    hide Split, RealizedWeight;
    if inp.round.Ran? {
      var st := inp.st.(lastAnalysis := At(inp.now), counters := Apply(inp.st.counters, inp.round.verdict));
      PhaseBlindJudgement(p, inp, st, phase);
    }
  }

  lemma PhaseBlindJudgement(p: Plan, inp: Input, st: State, phase: Phase)
    ensures forall v :: Judge(p, inp, st, v) == Judge(p, inp.(st := inp.st.(phase := phase)), st.(phase := phase), v)
  {
  }
}
