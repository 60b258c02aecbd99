/** One reconcile pass around the state machine: planning (internal/controller/canary.go)
    and the status it leaves behind (internal/controller/status.go).

    A pass is a value: everything read from the cluster, the metric provider and the
    operator's annotations. Conditions and messages are not modelled. */
module Rollout {
  import opened Verdicts
  import opened Weights
  import opened CanaryMachine
  import opened CanaryRuns

  // ---- Status ------------------------------------------------------------

  datatype StatusPhase =
    | StNone | StPending | StProgressing | StAvailable | StDegraded
    | StCanarying | StPaused | StPromoting | StRollingBack

  /** status.canary. */
  datatype CanaryStatus = CanaryStatus(
    revision: Revision, stable: Revision, failed: Revision, scopeReady: bool, step: int,
    readiness: ReadinessTarget, failedChecks: int, consecutiveErrors: int, consecutiveInconclusive: int,
    startTime: Instant, lastAnalysisTime: Instant, availableSince: Instant)

  datatype MaybeCanary = NoCanary | HasCanary(cs: CanaryStatus)

  datatype Status = Status(phase: StatusPhase, stableRevision: Revision, lastGood: Revision, canary: MaybeCanary)

  /** What is read back of a variant's Deployment after it was applied. */
  datatype Workload =
    | Missing
    | Workload(generation: int, observedGeneration: int, replicas: int, updated: int, ready: int,
               available: int, stalled: bool)

  /** One reconcile pass. `interrupted` says that the spec was found unusable between
      the previous pass and this one, which rewrites only the phase (failTerminally). */
  datatype Pass = ReconcilePass(
    now: int, target: Revision, total: int,
    canaryStrategy: bool, plan: Plan, autoRollback: bool,
    primaryStalled: bool, candidate: Deployment,
    scopeVerified: bool, verdict: Verdict, approved: bool, aborted: bool,
    primaryAfter: Workload, canaryAfter: Workload, interrupted: bool)

  /** What should be running after this pass. */
  datatype Decision = Decision(
    primaryRevision: Revision, canaryRevision: Revision, primaryReplicas: int, canaryReplicas: int,
    output: Output, active: bool, rolledBack: bool, stallReverted: bool)

  const NO_OUTPUT := Output(FRESH, Undecided, 0, 0, 0, 0, 0, Unexplained)

  function FirstSet(a: Revision, b: Revision): Revision { if a != Unset then a else b }

  // ---- Persisting and restoring the position -----------------------------

  /** canaryPhaseFrom. */
  function MachinePhase(phase: StatusPhase): Phase
  {
    match phase
    case StCanarying => Progressing
    case StPaused => Paused
    case StPromoting => Promoting
    case StRollingBack => RollingBack
    case _ => Idle
  }

  /** canaryStateFrom. */
  function Restore(s: Status): State
  {
    match s.canary
    case NoCanary => FRESH
    case HasCanary(cs) =>
      State(MachinePhase(s.phase), cs.revision, cs.stable, cs.failed, cs.scopeReady, cs.step, cs.availableSince,
            cs.readiness, cs.lastAnalysisTime, cs.startTime,
            Restored(cs.failedChecks, cs.consecutiveErrors, cs.consecutiveInconclusive))
  }

  /** canaryStatusFrom. */
  function Persist(st: State): MaybeCanary
  {
    if st.phase == Idle && st.revision == Unset && st.failed == Unset then NoCanary
    else HasCanary(CanaryStatus(
      st.revision, st.stable, st.failed, st.scopeReady, st.step, st.readiness,
      st.counters.failed, st.counters.consecErr, st.counters.consecInconcl,
      st.startedAt, st.lastAnalysis, st.availableSince))
  }

  // ---- Planning ----------------------------------------------------------

  function RawInput(s: Status, pass: Pass): Input
  {
    Input(pass.now, Restore(s), pass.target, s.lastGood, pass.total, pass.candidate, NoRound,
          pass.approved, pass.aborted)
  }

  predicate AnalysisDue(s: Status, pass: Pass)
  {
    var raw := RawInput(s, pass);
    && !pass.aborted && raw.st.revision == pass.target
    && DueForAnalysis(pass.now, pass.plan, Observe(pass.plan, raw).st)
  }

  /** The metric-scope handshake is outstanding, so the due round is not run. */
  predicate ScopeIsPending(s: Status, pass: Pass)
  {
    AnalysisDue(s, pass) && !Observe(pass.plan, RawInput(s, pass)).st.scopeReady && !pass.scopeVerified
  }

  /** The input planCanary finally hands to Next. */
  function PlannedInput(s: Status, pass: Pass): Input
  {
    var seen := Observe(pass.plan, RawInput(s, pass));
    if AnalysisDue(s, pass) && !ScopeIsPending(s, pass)
    then seen.(st := seen.st.(scopeReady := true), round := Ran(pass.verdict))
    else seen
  }

  function Soonest(a: int, b: int): int
  {
    if a <= 0 then Max(b, 0) else if b <= 0 then a else Min(a, b)
  }

  function CanaryOutput(s: Status, pass: Pass): Output
  {
    var out := Next(pass.plan, PlannedInput(s, pass));
    if ScopeIsPending(s, pass)
    then out.(reason := ScopePending, requeueAfter := Soonest(out.requeueAfter, pass.plan.interval))
    else out
  }

  function PlanCanary(s: Status, pass: Pass): Decision
  {
    var out := CanaryOutput(s, pass);
    match out.action
    case Promote => Decision(out.st.revision, Unset, pass.total, 0, out, false, false, false)
    case Rollback =>
      Decision(FirstSet(out.st.stable, FirstSet(s.lastGood, pass.target)), Unset, pass.total, 0, out, false, false, false)
    case Nothing => Decision(pass.target, Unset, pass.total, 0, out, false, false, false)
    case _ =>
      Decision(FirstSet(s.lastGood, pass.target), out.st.revision, out.primary, out.canary, out,
               out.st.revision != Unset, false, false)
  }

  function FailedRevision(s: Status): Revision
  {
    match s.canary case NoCanary => Unset case HasCanary(cs) => cs.failed
  }

  function HoldRejected(s: Status, pass: Pass, d: Decision): Decision
  {
    var rejected := FirstSet(d.output.st.failed, FailedRevision(s));
    if d.active || d.rolledBack || rejected == Unset || rejected != pass.target
       || s.lastGood == Unset || s.lastGood == pass.target then d
    else d.(primaryRevision := s.lastGood, primaryReplicas := pass.total, canaryRevision := Unset,
            canaryReplicas := 0, rolledBack := true,
            output := d.output.(st := d.output.st.(failed := rejected)))
  }

  function GuardAgainstStall(s: Status, pass: Pass, d: Decision): Decision
  {
    if d.active || d.rolledBack || !pass.autoRollback || !pass.primaryStalled
       || s.lastGood == Unset || s.lastGood == d.primaryRevision then d
    else d.(primaryRevision := s.lastGood, canaryRevision := Unset, canaryReplicas := 0,
            rolledBack := true, stallReverted := true,
            output := d.output.(st := d.output.st.(failed := d.primaryRevision)))
  }

  function PlanRollout(s: Status, pass: Pass): Decision
  {
    var planned := if pass.canaryStrategy then PlanCanary(s, pass)
      else Decision(pass.target, Unset, pass.total, 0, NO_OUTPUT, false, false, false);
    GuardAgainstStall(s, pass, HoldRejected(s, pass, planned))
  }

  // ---- Status of the pass ------------------------------------------------

  /** Replica counters over the variants that exist. */
  datatype Fleet = Fleet(replicas: int, ready: int, available: int)

  function Sum(ws: seq<Workload>): Fleet
  {
    if ws == [] then Fleet(0, 0, 0)
    else
      var rest, w := Sum(ws[..|ws| - 1]), ws[|ws| - 1];
      if w.Missing? then rest
      else Fleet(rest.replicas + w.replicas, rest.ready + w.ready, rest.available + w.available)
  }

  method SumVariants(ws: seq<Workload>) returns (fleet: Fleet)
    ensures fleet == Sum(ws)
  {
    var replicas, ready, available := 0, 0, 0;
    for i := 0 to |ws|
      invariant Fleet(replicas, ready, available) == Sum(ws[..i])
    {
      assert ws[..i + 1][..i] == ws[..i];
      if !ws[i].Missing? {
        replicas := replicas + ws[i].replicas;
        ready := ready + ws[i].ready;
        available := available + ws[i].available;
      }
    }
    assert ws[..|ws|] == ws;
    fleet := Fleet(replicas, ready, available);
  }

  predicate IsAvailable(pass: Pass)
  {
    pass.total == 0 || (pass.primaryAfter.Workload? && Sum([pass.primaryAfter, pass.canaryAfter]).ready > 0)
  }

  predicate IsStalled(pass: Pass) { pass.primaryAfter.Workload? && pass.primaryAfter.stalled }

  /** updatedReplicas: pods on the target revision. */
  function Updated(pass: Pass, primaryRevision: Revision): int
  {
    (if pass.primaryAfter.Workload? && primaryRevision == pass.target then pass.primaryAfter.updated else 0)
    + (if pass.canaryAfter.Workload? then pass.canaryAfter.updated else 0)
  }

  /** setProgressing's first result. */
  predicate IsProgressing(pass: Pass, d: Decision)
  {
    if pass.primaryAfter.Missing? then true
    else if IsStalled(pass) then false
    else
      var w := pass.primaryAfter;
      if d.rolledBack && d.primaryRevision != Unset && d.primaryRevision != pass.target then
        !(pass.canaryAfter.Missing? && w.observedGeneration >= w.generation
          && w.updated == pass.total && w.replicas == pass.total && w.available == pass.total)
      else
        var fleet := Sum([pass.primaryAfter, pass.canaryAfter]);
        !(Updated(pass, FirstSet(d.primaryRevision, pass.target)) == pass.total && fleet.replicas == pass.total
          && fleet.available == pass.total && w.observedGeneration >= w.generation)
  }

  /** setCanaryHealthy's result. */
  predicate CanaryInFlight(out: Output)
  {
    out.action == Start || out.action == Advance || out.action == Wait || (out.action == Pause && out.canary > 0)
  }

  function DerivePhase(available: bool, progressing: bool, stalled: bool, lastGood: Revision, d: Decision): StatusPhase
  {
    if d.output.action == Start || d.output.action == Advance then StCanarying
    else if d.output.action == Wait && d.active then StCanarying
    else if d.output.action == Pause then StPaused
    else if d.output.action == Promote then StPromoting
    else if d.output.action == Rollback then StRollingBack
    else if stalled then StDegraded
    else if available && !progressing then StAvailable
    else if lastGood == Unset && !available then StPending
    else if progressing then StProgressing
    else StDegraded
  }

  /** The rule for the rollback target: only a primary that is serving, settled, not
      stalled and not shadowed by a canary is banked. */
  predicate Banks(pass: Pass, d: Decision)
  {
    IsAvailable(pass) && !IsProgressing(pass, d) && !IsStalled(pass) && !CanaryInFlight(d.output)
  }

  function ComputeStatus(s: Status, pass: Pass, d: Decision): Status
  {
    var primaryRevision := FirstSet(d.primaryRevision, pass.target);
    var lastGood := if Banks(pass, d) && primaryRevision != Unset then primaryRevision else s.lastGood;
    Status(DerivePhase(IsAvailable(pass), IsProgressing(pass, d), IsStalled(pass), lastGood, d),
           primaryRevision, lastGood, Persist(d.output.st))
  }

  /** The status a pass works from. */
  function Found(s: Status, pass: Pass): Status
  {
    if pass.interrupted then s.(phase := StDegraded) else s
  }

  function DecisionOf(s: Status, pass: Pass): Decision { PlanRollout(Found(s, pass), pass) }

  function NextStatus(s: Status, pass: Pass): Status
  {
    ComputeStatus(Found(s, pass), pass, DecisionOf(s, pass))
  }

  // ---- Conservation ------------------------------------------------------

  /** Every plan runs exactly the replicas asked for. */
  lemma PlanConservesReplicas(s: Status, pass: Pass)
    requires pass.total >= 0 && pass.target != Unset
    ensures var d := PlanRollout(s, pass);
            d.primaryReplicas + d.canaryReplicas == pass.total && d.primaryReplicas >= 0 && d.canaryReplicas >= 0
  {
    hide Next, Observe, DueForAnalysis;
    if pass.canaryStrategy {
      var inp := PlannedInput(s, pass);
      ObserveKeeps(pass.plan, RawInput(s, pass));
      SplitConserved(pass.plan, inp);
      ActiveRunsTarget(pass.plan, inp);
      ActionFitsPhase(pass.plan, inp);
    }
  }

  /** A candidate in flight or being promoted is always the current target. */
  lemma ActiveRunsTarget(p: Plan, inp: Input)
    ensures IsActive(Next(p, inp).st.phase) || Next(p, inp).st.phase == Promoting ==> Next(p, inp).st.revision == inp.target
  {
    hide Split, RealizedWeight, Analyse, Observe;
    ObserveKeeps(p, inp);
    AnalysedRevision(p, Observe(p, inp));
  }

  lemma AnalysedRevision(p: Plan, o: Input)
    ensures Analyse(p, o).st.revision in {o.target, o.st.revision}
  {
  }

  // ---- Restart safety ----------------------------------------------------

  /** Persisting an output and restoring it gives the same position back. */
  lemma PersistRestores(p: Plan, inp: Input, available: bool, progressing: bool, stalled: bool,
                        lastGood: Revision, stableRevision: Revision, d: Decision)
    requires inp.target != Unset && d.output.action == Next(p, inp).action
    requires d.active == (Next(p, inp).st.revision != Unset) || d.output.action != Wait
    ensures var out := Next(p, inp);
      SamePosition(out.st, Restore(Status(DerivePhase(available, progressing, stalled, lastGood, d),
                                          stableRevision, lastGood, Persist(out.st))))
  {
    hide Next;
    ActionFitsPhase(p, inp);
    ActiveRunsTarget(p, inp);
    IdleIsFresh(p, inp);
  }

  lemma IdleIsFresh(p: Plan, inp: Input)
    ensures Next(p, inp).action == Nothing ==> Next(p, inp).st == FRESH.(failed := Next(p, inp).st.failed)
  {
    hide Split, RealizedWeight, Analyse, Observe;
    AnalysisFitsPhase(p, Observe(p, inp));
    AnalysisActs(p, Observe(p, inp));
  }

  /** Whether the controller restarts after a pass, and what it then finds around
      the persisted position. */
  datatype Restart = Kept | Restarted(available: bool, progressing: bool, stalled: bool, lastGood: Revision, found: Revision)

  function Carry(out: Output, r: Restart): State
  {
    match r
    case Kept => out.st
    case Restarted(available, progressing, stalled, lastGood, found) =>
      var d := Decision(Unset, out.st.revision, out.primary, out.canary, out, out.st.revision != Unset, false, false);
      Restore(Status(DerivePhase(available, progressing, stalled, lastGood, d), found, lastGood, Persist(out.st)))
  }

  /** The decisions of a run that restarts on the given schedule. */
  function Decisions(p: Plan, st: State, passes: seq<Input>, schedule: seq<Restart>): seq<Output>
    requires |schedule| == |passes|
    decreases |passes|
  {
    if passes == [] then []
    else
      var out := Next(p, passes[0].(st := st));
      [out] + Decisions(p, Carry(out, schedule[0]), passes[1..], schedule[1..])
  }

  /** Restarts between passes, in any pattern, change no decision of the run. */
  lemma {:induction false} RestartsAreInvisible(
    p: Plan, st: State, st': State, passes: seq<Input>, schedule: seq<Restart>, schedule': seq<Restart>)
    requires |schedule| == |schedule'| == |passes| && SamePosition(st, st')
    requires forall i :: 0 <= i < |passes| ==> passes[i].target != Unset
    ensures Decisions(p, st, passes, schedule) == Decisions(p, st', passes, schedule')
    decreases |passes|
  {
    hide Next, DerivePhase, Restore, Persist;
    if passes != [] {
      var inp, inp' := passes[0].(st := st), passes[0].(st := st');
      assert inp' == inp.(st := st');
      SamePositionSameDecision(p, inp, st');
      var out := Next(p, inp);
      CarriedPosition(p, inp, schedule[0]);
      CarriedPosition(p, inp, schedule'[0]);
      var a, b := Carry(out, schedule[0]), Carry(out, schedule'[0]);
      assert SamePosition(a, b);
      RestartsAreInvisible(p, a, b, passes[1..], schedule[1..], schedule'[1..]);
    }
  }

  lemma CarriedPosition(p: Plan, inp: Input, r: Restart)
    requires inp.target != Unset
    ensures SamePosition(Next(p, inp).st, Carry(Next(p, inp), r))
  {
    hide Next, DerivePhase, Restore, Persist;
    if r.Restarted? {
      var out := Next(p, inp);
      var d := Decision(Unset, out.st.revision, out.primary, out.canary, out, out.st.revision != Unset, false, false);
      PersistRestores(p, inp, r.available, r.progressing, r.stalled, r.lastGood, r.found, d);
    }
  }
}
