/** The rollback target can always be reconstructed: what the controller records and
    keeps (internal/controller/modeldeployment_controller.go:389-529), along the
    closed loop. */
module RollbackTarget {
  import opened Verdicts
  import opened Weights
  import opened CanaryMachine
  import opened Rollout
  import opened ClosedLoop
  import opened History

  const REVISION_HISTORY_LIMIT := 10

  /** Every revision a status mentions. */
  function Mentioned(s: Status): set<Revision>
  {
    {s.stableRevision, s.lastGood} +
    match s.canary
    case NoCanary => {}
    case HasCanary(cs) => {cs.revision, cs.stable, cs.failed}
  }

  /** The keep list of recordRevision. */
  function KeepList(s: Status, rev: Revision): seq<Revision>
  {
    [rev, s.stableRevision, s.lastGood] +
    match s.canary
    case NoCanary => []
    case HasCanary(cs) => [cs.revision, cs.stable, cs.failed]
  }

  /** What recording and then pruning may leave behind. */
  ghost predicate Kept(before: set<Entry>, after: set<Entry>, s: Status, rev: Revision)
  {
    exists mid ::
      && Recorded(before, mid, rev)
      && Pruned(mid, after, REVISION_HISTORY_LIMIT, set k | k in KeepList(s, rev) && k != Unset)
  }

  /** recordRevision. */
  method RecordRevision(recorder: Recorder, s: Status, rev: Revision, payload: Payload) returns (ok: bool)
    requires WellKept(recorder.items)
    modifies recorder
    ensures WellKept(recorder.items)
    ensures ok <==>
              && rev != Unset && payload.body != 0 && payload.hash == rev
              && forall e :: e in old(recorder.items) && e.hash == rev ==> e.payload == payload
    ensures ok ==> Kept(old(recorder.items), recorder.items, s, rev)
    ensures !ok ==> recorder.items == old(recorder.items)
  {
    hide Pruned, Recorded;
    var r := recorder.Record(rev, payload);
    if !r.Existing? && !r.Created? {
      return false;
    }
    recorder.Prune(REVISION_HISTORY_LIMIT, KeepList(s, rev));
    return true;
  }

  /** Up to ten revisions are kept in any case, and more only if they are all in use. */
  lemma TenAreKept(before: set<Entry>, after: set<Entry>, s: Status, rev: Revision)
    requires Kept(before, after, s, rev)
    ensures |before| < 10 ==> before <= after
    ensures |after| <= 10 || forall e :: e in after ==> e.hash in KeepList(s, rev) && e.hash != Unset
  {
    var keep := set k | k in KeepList(s, rev) && k != Unset;
    var mid :| Recorded(before, mid, rev) && Pruned(mid, after, REVISION_HISTORY_LIMIT, keep);
    assert before <= mid && |mid| <= |before| + 1;
    if |before| < 10 {
      SameSize(after, mid);
    }
    if |after| > 10 {
      SameSize(PinnedIn(mid, keep), after);
    }
  }

  lemma SameSize(a: set<Entry>, b: set<Entry>)
    requires a <= b
    ensures |a| <= |b| && (|a| == |b| ==> a == b)
  {
    assert b == a + (b - a);
  }

  /** Every revision the status mentions is in the store. */
  ghost predicate Covers(items: set<Entry>, s: Status)
  {
    forall r :: r in Mentioned(s) && r != Unset ==> Names(items, r)
  }

  /** specForRevision finds what a variant is to run: the live spec for the target,
      recorded history for anything else. */
  ghost predicate Renderable(items: set<Entry>, target: Revision, want: Revision)
  {
    want == Unset || want == target || Names(items, want)
  }

  /** What a reconcile that fails before it writes its status may leave behind: its target
      recorded or not, and any part of the pruning done. */
  ghost predicate Touched(before: set<Entry>, after: set<Entry>, s: Status, rev: Revision)
  {
    exists mid ::
      && (mid == before || Recorded(before, mid, rev))
      && after <= mid && PinnedIn(mid, set k | k in KeepList(s, rev) && k != Unset) <= after
  }

  lemma TouchedCovers(before: set<Entry>, after: set<Entry>, s: Status, rev: Revision)
    requires Covers(before, s) && Touched(before, after, s, rev)
    ensures Covers(after, s)
  {
    var mid :| (mid == before || Recorded(before, mid, rev))
      && after <= mid && PinnedIn(mid, set k | k in KeepList(s, rev) && k != Unset) <= after;
    assert before <= mid;
    forall r | r in Mentioned(s) && r != Unset
      ensures Names(after, r)
    {
      assert Names(before, r);
      var e :| e in before && e.hash == r;
      assert r in KeepList(s, rev);
      assert e in PinnedIn(mid, set k | k in KeepList(s, rev) && k != Unset);
    }
  }

  /** Any number of such reconciles: the targets they were at, and the store before,
      between and after them. */
  datatype Failures = Failures(targets: seq<Revision>, stores: seq<set<Entry>>)

  ghost predicate TouchedBy(f: Failures, s: Status)
  {
    && |f.stores| == |f.targets| + 1
    && forall j :: 0 <= j < |f.targets| ==> Touched(f.stores[j], f.stores[j + 1], s, f.targets[j])
  }

  lemma {:induction false} TouchedByCovers(f: Failures, s: Status, j: nat)
    requires TouchedBy(f, s) && Covers(f.stores[0], s) && j < |f.stores|
    ensures Covers(f.stores[j], s)
  {
    hide Covers, Touched;
    if j > 0 {
      TouchedByCovers(f, s, j - 1);
      assert Touched(f.stores[j - 1], f.stores[j], s, f.targets[j - 1]);
      TouchedCovers(f.stores[j - 1], f.stores[j], s, f.targets[j - 1]);
    }
  }

  lemma KeptCovers(before: set<Entry>, after: set<Entry>, s: Status, rev: Revision)
    requires Covers(before, s) && rev != Unset && Kept(before, after, s, rev)
    ensures Covers(after, s) && Names(after, rev)
  {
  }

  // ---- No decision invents a revision ------------------------------------

  predicate Familiar(p: Plan, inp: Input, st: State)
  {
    && st.revision in {Unset, inp.target, inp.st.revision}
    && st.stable in {Unset, inp.stable, inp.st.stable}
    && st.failed in {inp.st.failed, inp.st.revision}
  }

  lemma NextIsFamiliar(p: Plan, inp: Input)
    ensures Familiar(p, inp, Next(p, inp).st)
  {
    hide Split, RealizedWeight, Analyse, Observe;
    ObserveKeeps(p, inp);
    ObserveKeepsNames(p, inp);
    AnalyseIsFamiliar(p, Observe(p, inp));
  }

  lemma ObserveKeepsNames(p: Plan, inp: Input)
    ensures var o := Observe(p, inp).st;
      o.revision == inp.st.revision && o.stable == inp.st.stable && o.failed == inp.st.failed
  {
  }

  lemma AnalyseIsFamiliar(p: Plan, o: Input)
    ensures Familiar(p, o, Analyse(p, o).st)
  {
  }

  lemma OutputIsFamiliar(s: Status, pass: Pass)
    ensures var st := CanaryOutput(s, pass).st;
      && st.revision in Mentioned(s) + {Unset, pass.target}
      && st.stable in Mentioned(s) + {Unset}
      && st.failed in Mentioned(s) + {Unset}
  {
    hide Next, Observe, DueForAnalysis;
    var raw := RawInput(s, pass);
    ObserveKeeps(pass.plan, raw);
    ObserveKeepsNames(pass.plan, raw);
    NextIsFamiliar(pass.plan, PlannedInput(s, pass));
  }

  /** A plan and the status it leaves mention only what the status before mentioned,
      and the target. */
  lemma PlanIsFamiliar(s: Status, pass: Pass)
    ensures var d := PlanRollout(s, pass); var known := Mentioned(s) + {Unset, pass.target};
      && d.primaryRevision in known && d.canaryRevision in known
      && d.output.st.revision in known && d.output.st.stable in known && d.output.st.failed in known
  {
    hide CanaryOutput;
    if pass.canaryStrategy {
      OutputIsFamiliar(s, pass);
    }
  }

  lemma NextStatusIsFamiliar(s: Status, pass: Pass)
    ensures Mentioned(NextStatus(s, pass)) <= Mentioned(s) + {Unset, pass.target}
  {
    hide PlanRollout, Banks, DerivePhase;
    PlanIsFamiliar(Found(s, pass), pass);
  }

  // ---- Along the loop ----------------------------------------------------

  /** Every pass recorded its target and pruned before it planned; before it, any number
      of reconciles had touched the store and failed without writing a status. */
  ghost predicate Bookkept(l: Loop, stores: seq<set<Entry>>, failures: seq<Failures>)
    requires IsLoop(l)
  {
    && |stores| == |l.statuses| && |failures| == |l.passes|
    && forall i :: 0 <= i < |l.passes| ==>
         BookkeptPass(l.statuses[i], l.passes[i], stores[i], failures[i], stores[i + 1])
  }

  ghost predicate BookkeptPass(s: Status, pass: Pass, before: set<Entry>, f: Failures, after: set<Entry>)
  {
    && pass.target != Unset && TouchedBy(f, s) && f.stores[0] == before
    && Kept(f.stores[|f.stores| - 1], after, s, pass.target)
  }

  /** Every revision named in status stays in the stored history, so neither lookup of
      any plan can fail, however many targets come and go. */
  lemma {:induction false} AlwaysReconstructable(l: Loop, stores: seq<set<Entry>>, failures: seq<Failures>, i: int)
    requires IsLoop(l) && Bookkept(l, stores, failures) && Covers(stores[0], l.statuses[0])
    requires 0 <= i < |l.passes|
    ensures forall j :: 0 <= j < |failures[i].stores| ==> Covers(failures[i].stores[j], l.statuses[i])
    ensures Covers(stores[i + 1], l.statuses[i]) && Covers(stores[i + 1], l.statuses[i + 1])
    ensures var d := DecisionOf(l.statuses[i], l.passes[i]);
      && Renderable(stores[i + 1], l.passes[i].target, d.primaryRevision)
      && Renderable(stores[i + 1], l.passes[i].target, d.canaryRevision)
    decreases i
  {
    hide Kept, NextStatus, PlanRollout, Names;
    if i > 0 {
      AlwaysReconstructable(l, stores, failures, i - 1);
    }
    var s, pass, f := l.statuses[i], l.passes[i], failures[i];
    assert LoopStep(l, i);
    assert BookkeptPass(s, pass, stores[i], f, stores[i + 1]);
    forall j | 0 <= j < |f.stores|
      ensures Covers(f.stores[j], s)
    {
      TouchedByCovers(f, s, j);
    }
    KeptCovers(f.stores[|f.stores| - 1], stores[i + 1], s, pass.target);
    NextStatusIsFamiliar(s, pass);
    PlanIsFamiliar(Found(s, pass), pass);
  }
}
