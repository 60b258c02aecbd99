/** The metric-scope handshake along the closed loop: no analysis round is run on the
    word of a Deployment that has since been replaced
    (internal/controller/canary.go:290-311, internal/canary/state.go:260-266). */
module MetricHandshake {
  import opened Verdicts
  import opened Weights
  import opened CanaryMachine
  import opened CanaryRuns
  import opened Rollout
  import opened ClosedLoop

  /** This pass runs an analysis round. */
  predicate RunsRound(s: Status, pass: Pass) { AnalysisDue(s, pass) && !ScopeIsPending(s, pass) }

  /** The handshake this pass relies on was made on it, or carried into it for the same
      Deployment. */
  predicate HasScope(s: Status, pass: Pass)
  {
    var raw := Restore(s);
    || (pass.scopeVerified && pass.candidate.uid != NoUid)
    || (IsActive(raw.phase) && raw.scopeReady && raw.readiness.uid in {NoUid, pass.candidate.uid})
  }

  lemma RoundHasScope(s: Status, pass: Pass)
    requires Resolved(pass.plan) && RunsRound(s, pass)
    ensures HasScope(s, pass)
  {
  }

  lemma PersistedHasScope(s: Status, pass: Pass)
    requires Resolved(pass.plan)
    requires var st := Next(pass.plan, PlannedInput(s, pass)).st; IsActive(st.phase) && st.scopeReady
    ensures HasScope(s, pass) && Next(pass.plan, PlannedInput(s, pass)).st.readiness.uid == pass.candidate.uid
  {
    hide Split, RealizedWeight, Decide;
    ObserveIdempotent(pass.plan, RawInput(s, pass));
    ScopeCarried(pass.plan, PlannedInput(s, pass));
  }

  lemma ScopeCarried(p: Plan, inp: Input)
    ensures var o, out := Observe(p, inp), Next(p, inp);
      IsActive(out.st.phase) && out.st.scopeReady ==>
        o.st.scopeReady && out.st.readiness == o.st.readiness && Observes(o)
  {
    hide Split, RealizedWeight, Analyse, Observe;
    AnalysisKeepsScope(p, Observe(p, inp));
  }

  lemma AnalysisKeepsScope(p: Plan, o: Input)
    ensures Analyse(p, o).st.scopeReady ==> o.st.scopeReady && Analyse(p, o).st.readiness == o.st.readiness
  {
  }

  /** The restored position of the next pass, if it is in flight. */
  lemma RestoredScope(s: Status, pass: Pass)
    requires pass.canaryStrategy && Resolved(pass.plan) && pass.target != Unset
    requires IsActive(Restore(NextStatus(s, pass)).phase)
    ensures var st, t := Next(pass.plan, PlannedInput(Found(s, pass), pass)).st, Restore(NextStatus(s, pass));
      IsActive(st.phase) && t.scopeReady == st.scopeReady && t.readiness == st.readiness
  {
    hide Next, Observe, DueForAnalysis, Sum, IsProgressing, IsAvailable, IsStalled;
    ActionFitsPhase(pass.plan, PlannedInput(Found(s, pass), pass));
  }

  /** Passes j .. i-1 all saw the Deployment `uid`, and pass j verified its metrics. */
  ghost predicate VerifiedSince(l: Loop, j: int, i: int, uid: Uid)
  {
    && 0 <= j < i <= |l.passes| && uid != NoUid && l.passes[j].scopeVerified
    && forall k :: j <= k < i ==> l.passes[k].candidate.uid == uid
  }

  /** Where the handshake of a position in flight was made. */
  lemma {:induction false} HandshakeOrigin(l: Loop, i: int) returns (j: int)
    requires EditedLoop(l) && 0 <= i <= |l.passes|
    requires IsActive(Restore(l.statuses[i]).phase) && Restore(l.statuses[i]).scopeReady
    ensures VerifiedSince(l, j, i, Restore(l.statuses[i]).readiness.uid)
    decreases i
  {
    hide Next, NextStatus, PlannedInput;
    assert i > 0;
    var s, pass := l.statuses[i - 1], l.passes[i - 1];
    assert LoopStep(l, i - 1);
    assert Resolved(pass.plan);
    RestoredScope(s, pass);
    PersistedHasScope(Found(s, pass), pass);
    if pass.scopeVerified && pass.candidate.uid != NoUid {
      j := i - 1;
    } else {
      j := HandshakeOrigin(l, i - 1);
    }
  }

  /** Whenever a pass runs a round, some pass up to it verified the candidate's
      resource-scoped metrics, and every pass since saw the same Deployment. */
  lemma RoundsRestOnThisDeployment(l: Loop, i: int) returns (j: int)
    requires EditedLoop(l) && 0 <= i < |l.passes| && RunsRound(Found(l.statuses[i], l.passes[i]), l.passes[i])
    ensures VerifiedSince(l, j, i + 1, l.passes[i].candidate.uid)
  {
    hide Next, NextStatus, PlannedInput, RunsRound;
    var s, pass := l.statuses[i], l.passes[i];
    assert Resolved(pass.plan);
    RoundHasScope(Found(s, pass), pass);
    if pass.scopeVerified && pass.candidate.uid != NoUid {
      j := i;
    } else {
      j := HandshakeOrigin(l, i);
    }
  }
}
