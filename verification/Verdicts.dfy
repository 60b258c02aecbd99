/** Round verdicts and the three budgets a canary spends (internal/canary/verdict.go). */
module Verdicts {

  datatype Verdict = Pass | Inconclusive | Fail | Error

  /** How strongly a verdict dominates a round: an error outranks a failure. */
  function Rank(v: Verdict): nat
  {
    match v
    case Pass => 0
    case Inconclusive => 1
    case Fail => 2
    case Error => 3
  }

  /** The round verdict: the most alarming check decides, and a round in which
      nothing was evaluated is an error, never a pass. */
  function Worst(vs: seq<Verdict>): (w: Verdict)
    ensures vs == [] ==> w == Error
    ensures vs != [] ==> w in vs && forall v :: v in vs ==> Rank(v) <= Rank(w)
  {
    if vs == [] then Error
    else if |vs| == 1 then vs[0]
    else
      var rest := Worst(vs[..|vs| - 1]);
      var last := vs[|vs| - 1];
      assert vs == vs[..|vs| - 1] + [last];
      if Rank(last) > Rank(rest) then last else rest
  }

  /** The promotion rule: a round passes only if something was checked and every
      check passed; it fails only if some check failed and none errored. */
  lemma WorstDecides(vs: seq<Verdict>)
    ensures Worst(vs) == Pass <==> vs != [] && forall i :: 0 <= i < |vs| ==> vs[i] == Pass
    ensures Worst(vs) == Fail <==> Fail in vs && Error !in vs
    ensures Worst(vs) == Error <==> vs == [] || Error in vs
  {
  }

  method Aggregate(checks: seq<Verdict>) returns (round: Verdict)
    ensures round == Worst(checks)
  {
    if |checks| == 0 {
      return Error;
    }
    var worst := Pass;
    for i := 0 to |checks|
      invariant i == 0 ==> worst == Pass
      invariant i > 0 ==> worst == Worst(checks[..i])
    {
      assert checks[..i + 1][..i] == checks[..i];
      if Rank(checks[i]) > Rank(worst) {
        worst := checks[i];
      }
    }
    assert checks[..|checks|] == checks;
    return worst;
  }

  /** The disjoint budgets. */
  datatype Counters = Counters(failed: nat, consecErr: nat, consecInconcl: nat)

  const ZERO := Counters(0, 0, 0)

  function Apply(c: Counters, v: Verdict): Counters
  {
    match v
    case Pass => c.(consecErr := 0, consecInconcl := 0)
    case Fail => Counters(c.failed + 1, 0, 0)
    case Error => c.(consecErr := c.consecErr + 1)
    case Inconclusive => c.(consecInconcl := c.consecInconcl + 1, consecErr := 0)
  }

  /** What a readiness reset does to the budgets (state.go:276). */
  function ClearRuns(c: Counters): Counters { c.(consecErr := 0, consecInconcl := 0) }

  /** Restores budgets from persisted fields, clamping negatives (SetCounters). */
  function Restored(failed: int, consecErr: int, consecInconcl: int): Counters
  {
    Counters(if failed > 0 then failed else 0,
             if consecErr > 0 then consecErr else 0,
             if consecInconcl > 0 then consecInconcl else 0)
  }

  // ---- Budgets as functions of an attempt's history ----------------------

  /** What an attempt's budgets can see: consumed rounds and readiness resets. */
  datatype Event = Round(verdict: Verdict) | Reset

  /** The events after the last one that is not in `run`. */
  function TrailingIn(es: seq<Event>, run: set<Event>): (t: seq<Event>)
    ensures |t| <= |es| && t == es[|es| - |t|..]
    ensures forall i :: 0 <= i < |t| ==> t[i] in run
    ensures |t| < |es| ==> es[|es| - |t| - 1] !in run
  {
    if es == [] || es[|es| - 1] !in run then []
    else
      var init := es[..|es| - 1];
      assert es == init + [es[|es| - 1]];
      TrailingIn(init, run) + [es[|es| - 1]]
  }

  function Count(es: seq<Event>, e: Event): nat
  {
    if es == [] then 0 else Count(es[..|es| - 1], e) + if es[|es| - 1] == e then 1 else 0
  }

  const ERRORS: set<Event> := {Round(Error)}
  const UNUSABLE: set<Event> := {Round(Error), Round(Inconclusive)}

  /** Failures are counted over the whole attempt; errors only while unbroken;
      inconclusives since the last pass, failure or reset, across errors. */
  function Tally(es: seq<Event>): Counters
  {
    Counters(Count(es, Round(Fail)),
             |TrailingIn(es, ERRORS)|,
             Count(TrailingIn(es, UNUSABLE), Round(Inconclusive)))
  }

  lemma {:induction false} TallyRound(es: seq<Event>, v: Verdict)
    ensures Tally(es + [Round(v)]) == Apply(Tally(es), v)
  {
    hide Count, TrailingIn;
    var e := Round(v);
    CountSnoc(es, e, Round(Fail));
    TrailingSnoc(es, e, ERRORS);
    TrailingSnoc(es, e, UNUSABLE);
    CountSnoc(TrailingIn(es, UNUSABLE), e, Round(Inconclusive));
    CountEmpty(Round(Inconclusive));
  }

  lemma CountEmpty(f: Event)
    ensures Count([], f) == 0
  {
  }

  lemma {:induction false} TallyReset(es: seq<Event>)
    ensures Tally(es + [Reset]) == ClearRuns(Tally(es))
  {
    CountSnoc(es, Reset, Round(Fail));
    TrailingSnoc(es, Reset, ERRORS);
    TrailingSnoc(es, Reset, UNUSABLE);
  }

  lemma {:induction false} TrailingSnoc(es: seq<Event>, e: Event, run: set<Event>)
    ensures TrailingIn(es + [e], run) == if e in run then TrailingIn(es, run) + [e] else []
  {
  }

  lemma {:induction false} CountSnoc(es: seq<Event>, e: Event, f: Event)
    ensures Count(es + [e], f) == Count(es, f) + if e == f then 1 else 0
  {
  }
}
