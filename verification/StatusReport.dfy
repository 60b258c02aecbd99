/** What status says of a pass, in the counters of the two workloads
    (internal/controller/status.go:86-191, 422-545, 624-663) and of the metric handshake
    (internal/controller/canary.go:290-318). */
module StatusReport {
  import opened Verdicts
  import opened Weights
  import opened CanaryMachine
  import opened CanaryRuns
  import opened Rollout
  import opened ClosedLoop

  /** Some pod serves, or none is wanted. */
  predicate Ready(pass: Pass)
  {
    var w, c := pass.primaryAfter, pass.canaryAfter;
    pass.total == 0 || (w.Workload? && w.ready + (if c.Workload? then c.ready else 0) > 0)
  }

  predicate Stalled(pass: Pass) { pass.primaryAfter.Workload? && pass.primaryAfter.stalled }

  /** The rollout that the plan asked for is through: of the last good revision alone if the
      target was held back, and otherwise of the target on both workloads. */
  predicate Complete(pass: Pass, d: Decision)
  {
    var w, c, n := pass.primaryAfter, pass.canaryAfter, pass.total;
    && w.Workload? && w.observedGeneration >= w.generation
    && if d.rolledBack && d.primaryRevision != Unset && d.primaryRevision != pass.target then
         c.Missing? && w.updated == n && w.replicas == n && w.available == n
       else
         && w.replicas + (if c.Workload? then c.replicas else 0) == n
         && w.available + (if c.Workload? then c.available else 0) == n
         && (if d.primaryRevision in {Unset, pass.target} then w.updated else 0)
            + (if c.Workload? then c.updated else 0) == n
  }

  /** The phase follows the state machine while it acts, and otherwise the workloads. */
  lemma PhaseIsExact(s: Status, pass: Pass)
    requires pass.target != Unset
    ensures var d, after := DecisionOf(s, pass), NextStatus(s, pass);
      after.phase ==
        match d.output.action
        case Start => StCanarying
        case Advance => StCanarying
        case Pause => StPaused
        case Promote => StPromoting
        case Rollback => StRollingBack
        case _ =>
          if d.output.action == Wait && d.active then StCanarying
          else if Stalled(pass) then StDegraded
          else if Ready(pass) && Complete(pass, d) then StAvailable
          else if after.lastGood == Unset && !Ready(pass) then StPending
          else if !Complete(pass, d) then StProgressing
          else StDegraded
  {
    hide DecisionOf, Sum;
    FleetOfTwo(pass.primaryAfter, pass.canaryAfter);
  }

  /** Status names what the primary runs, and banks it exactly when that rollout is through
      and serves, with nothing stalled and no candidate in flight. */
  lemma LastGoodIsExact(s: Status, pass: Pass)
    requires pass.target != Unset
    ensures var d, after := DecisionOf(s, pass), NextStatus(s, pass);
      && after.stableRevision == (if d.primaryRevision != Unset then d.primaryRevision else pass.target)
      && after.lastGood ==
           if && Ready(pass) && Complete(pass, d) && !Stalled(pass)
              && d.output.action !in {Start, Advance, Wait} && (d.output.action == Pause ==> d.output.canary <= 0)
           then after.stableRevision else s.lastGood
  {
    hide DecisionOf, Sum;
    FleetOfTwo(pass.primaryAfter, pass.canaryAfter);
  }

  /** A round is run exactly when it is due and the candidate's own metrics are proven; a
      due round that waits for this proof says so, and is tried again within an interval. */
  lemma HandshakeIsExact(s: Status, pass: Pass)
    requires Resolved(pass.plan)
    ensures var seen, out := Observe(pass.plan, RawInput(s, pass)), CanaryOutput(s, pass);
      var due := !pass.aborted && Restore(s).revision == pass.target && DueForAnalysis(pass.now, pass.plan, seen.st);
      && (PlannedInput(s, pass).round == Ran(pass.verdict) <==> due && (seen.st.scopeReady || pass.scopeVerified))
      && (PlannedInput(s, pass).round.Ran? ==> PlannedInput(s, pass).round.verdict == pass.verdict)
      && (out.reason == ScopePending <==> due && !seen.st.scopeReady && !pass.scopeVerified)
      && (out.reason == ScopePending ==>
            var timer := Next(pass.plan, PlannedInput(s, pass)).requeueAfter;
            out.requeueAfter == if timer <= 0 then pass.plan.interval else Min(timer, pass.plan.interval))
  {
    hide Next, Observe, DueForAnalysis;
    ObserveRunsNothing(pass.plan, RawInput(s, pass));
    NeverScopePending(pass.plan, PlannedInput(s, pass));
  }

  /** A rollback goes to the revision the candidate was measured against, else to the last
      good one, else nowhere. */
  lemma RollbackGoesBack(s: Status, pass: Pass)
    requires pass.canaryStrategy && CanaryOutput(s, pass).action == Rollback
    ensures var d, stable := PlanCanary(s, pass), CanaryOutput(s, pass).st.stable;
      d.primaryRevision == if stable != Unset then stable else if s.lastGood != Unset then s.lastGood else pass.target
  {
    hide CanaryOutput;
  }

  /** Status keeps nothing of a canary exactly when none is in flight and none was
      rejected. */
  lemma NothingToRemember(s: Status, pass: Pass)
    requires pass.target != Unset
    ensures var d := DecisionOf(s, pass);
      NextStatus(s, pass).canary == NoCanary <==> d.output.action in {Nothing, Undecided} && d.output.st.failed == Unset
  {
    hide Next, Observe, DueForAnalysis, Banks, DerivePhase;
    if pass.canaryStrategy {
      var f := Found(s, pass);
      var inp := PlannedInput(f, pass);
      ObserveKeeps(pass.plan, RawInput(f, pass));
      ActionFitsPhase(pass.plan, inp);
      IdleIsFresh(pass.plan, inp);
    }
  }

  lemma ObserveRunsNothing(p: Plan, inp: Input)
    ensures inp.round == NoRound ==> Observe(p, inp).round == NoRound
  {
  }

  lemma NeverScopePending(p: Plan, inp: Input)
    ensures Next(p, inp).reason != ScopePending
  {
    hide Split, RealizedWeight, Observe, Apply;
  }
}
