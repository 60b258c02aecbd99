/** From metric answers to a round's verdict (internal/analysis/analyzer.go,
    evaluate.go). The provider is any function from queries to answers; names, rendered
    values and messages are not modelled. */
module Analysis {
  import opened Readings
  import opened Verdicts
  import opened CanaryMachine
  import opened CanaryRuns
  import opened AttemptBudgets
  import opened AttemptTiming

  /** A transport failure, or how many series came back and the value of the first. */
  datatype Answer = Failed | Sample(value: Reading, count: nat)

  datatype Variant = CanaryPods | PrimaryPods

  datatype Query = RequestRate | UsageSamples(variant: Variant) | Plain(metric: nat) | RatioToPrimary(metric: nat)

  datatype Bound = Unbounded | At(r: real)

  /** One configured check. `tokenRate` marks the built-in that first needs enough
      usage-bearing samples; the two flags say whether its queries can be rendered. */
  datatype Metric = Metric(
    id: nat, tokenRate: bool, compareToPrimary: bool, renders: bool, primaryRenders: bool, min: Bound, max: Bound)

  datatype Request = Request(
    minRequestRate: real, minUsageSamples: int, rateRenders: bool, usageRenders: bool, metrics: seq<Metric>)

  type Provider = Query -> Answer

  predicate InRange(m: Metric, v: real)
  {
    (m.min.At? ==> v >= m.min.r) && (m.max.At? ==> v <= m.max.r)
  }

  function Evaluate(m: Metric, a: Answer): Verdict
  {
    if a.Failed? then Error
    else if a.count == 0 then Inconclusive
    else if a.count > 1 then Error
    else if a.value == NaN then Inconclusive
    else if a.value == PosInf || a.value == NegInf then Inconclusive
    else if m.min.At? && a.value.r < m.min.r then Fail
    else if m.max.At? && a.value.r > m.max.r then Fail
    else Pass
  }

  /** Only exactly one finite number is evidence, for or against. */
  lemma EvidenceIsOneNumber(m: Metric, a: Answer)
    ensures Evaluate(m, a) == Pass <==> a.Sample? && a.count == 1 && a.value.Fin? && InRange(m, a.value.r)
    ensures Evaluate(m, a) == Fail <==> a.Sample? && a.count == 1 && a.value.Fin? && !InRange(m, a.value.r)
    ensures Evaluate(m, a) == Error <==> a.Failed? || a.count > 1
  {
  }

  /** The traffic gate: what it reports for every check, if it closes. */
  datatype Gate = Opened | Shut(verdict: Verdict)

  function RateAnswer(req: Request, provider: Provider): Answer
  {
    if req.rateRenders then provider(RequestRate) else Failed
  }

  function GateOnTraffic(req: Request, provider: Provider): Gate
  {
    if req.minRequestRate <= 0.0 then Opened
    else match RateAnswer(req, provider)
      case Failed => Shut(Error)
      case Sample(value, count) =>
        if count == 0 then Shut(Inconclusive)
        else if count != 1 || !value.Fin? || value.r < 0.0 then Shut(Inconclusive)
        else if value.r < req.minRequestRate then Shut(Inconclusive)
        else Opened
  }

  function UsageFloor(req: Request): int { if req.minUsageSamples < 1 then 20 else req.minUsageSamples }

  /** The sample floor of the token-rate built-in, for the variants it measures. */
  function UsageVerdict(req: Request, provider: Provider, variants: seq<Variant>): Gate
  {
    if variants == [] then Opened
    else
      match if req.usageRenders then provider(UsageSamples(variants[0])) else Failed
      case Failed => Shut(Error)
      case Sample(value, count) =>
        if count != 1 || !value.Fin? || value.r < UsageFloor(req) as real then Shut(Inconclusive)
        else UsageVerdict(req, provider, variants[1..])
  }

  function Measures(m: Metric): seq<Variant> { if m.compareToPrimary then [CanaryPods, PrimaryPods] else [CanaryPods] }

  /** runOne. */
  function CheckOf(req: Request, provider: Provider, m: Metric): Verdict
  {
    match if m.tokenRate then UsageVerdict(req, provider, Measures(m)) else Opened
    case Shut(v) => v
    case Opened =>
      if !m.renders then Error
      else if m.compareToPrimary && !m.primaryRenders then Error
      else Evaluate(m, provider(if m.compareToPrimary then RatioToPrimary(m.id) else Plain(m.id)))
  }

  /** Run: the gate first, and if it closes, no metric is looked at. */
  function Checks(req: Request, provider: Provider): seq<Verdict>
  {
    match GateOnTraffic(req, provider)
    case Shut(v) => seq(|req.metrics|, i => v)
    case Opened => seq(|req.metrics|, i requires 0 <= i < |req.metrics| => CheckOf(req, provider, req.metrics[i]))
  }

  /** The round's verdict. */
  function RoundOf(req: Request, provider: Provider): Verdict { Worst(Checks(req, provider)) }

  method AllChecks(metrics: seq<Metric>, v: Verdict) returns (out: seq<Verdict>)
    ensures out == seq(|metrics|, i => v)
  {
    out := [];
    for i := 0 to |metrics|
      invariant out == seq(i, j => v)
    {
      out := out + [v];
    }
  }

  /** One finite number. */
  predicate IsEvidence(a: Answer) { a.Sample? && a.count == 1 && a.value.Fin? }

  /** The built-in token rate has enough usage-bearing samples for this variant. */
  predicate EnoughUsage(req: Request, provider: Provider, v: Variant)
  {
    var a := provider(UsageSamples(v));
    && req.usageRenders && IsEvidence(a)
    && a.value.r >= if req.minUsageSamples < 1 then 20.0 else req.minUsageSamples as real
  }

  /** The check's queries can be rendered, and a token rate has its samples from every
      variant it compares. */
  predicate CanJudge(req: Request, provider: Provider, m: Metric)
  {
    && m.renders && (m.compareToPrimary ==> m.primaryRenders)
    && (m.tokenRate ==>
          EnoughUsage(req, provider, CanaryPods) && (m.compareToPrimary ==> EnoughUsage(req, provider, PrimaryPods)))
  }

  function MainAnswer(provider: Provider, m: Metric): Answer
  {
    provider(if m.compareToPrimary then RatioToPrimary(m.id) else Plain(m.id))
  }

  /** When a check passes, and when it fails: it can judge at all, and its own query
      returns one finite number, in or out of range. */
  lemma CheckDecidesIff(req: Request, provider: Provider, m: Metric)
    ensures CheckOf(req, provider, m) == Pass <==>
      var a := MainAnswer(provider, m); CanJudge(req, provider, m) && IsEvidence(a) && InRange(m, a.value.r)
    ensures CheckOf(req, provider, m) == Fail <==>
      var a := MainAnswer(provider, m); CanJudge(req, provider, m) && IsEvidence(a) && !InRange(m, a.value.r)
  {
    UsageSuffices(req, provider, m);
    EvidenceIsOneNumber(m, MainAnswer(provider, m));
  }

  /** The query for this variant's samples cannot be rendered or fails. */
  predicate UsageUnknown(req: Request, provider: Provider, v: Variant)
  {
    !req.usageRenders || provider(UsageSamples(v)).Failed?
  }

  lemma UsageSuffices(req: Request, provider: Provider, m: Metric)
    ensures UsageVerdict(req, provider, Measures(m)) ==
      if UsageUnknown(req, provider, CanaryPods) then Shut(Error)
      else if !EnoughUsage(req, provider, CanaryPods) then Shut(Inconclusive)
      else if !m.compareToPrimary then Opened
      else if UsageUnknown(req, provider, PrimaryPods) then Shut(Error)
      else if !EnoughUsage(req, provider, PrimaryPods) then Shut(Inconclusive)
      else Opened
  {
    var rest := Measures(m)[1..];
    assert rest == if m.compareToPrimary then [PrimaryPods] else [];
    assert [PrimaryPods][1..] == [];
    assert UsageVerdict(req, provider, [PrimaryPods]) ==
      if UsageUnknown(req, provider, PrimaryPods) then Shut(Error)
      else if !EnoughUsage(req, provider, PrimaryPods) then Shut(Inconclusive)
      else Opened;
  }

  /** When a check errs: something it needs to know could not be asked. Thin data is never
      an error. */
  lemma CheckErrsIff(req: Request, provider: Provider, m: Metric)
    ensures CheckOf(req, provider, m) == Error <==>
      if m.tokenRate && UsageUnknown(req, provider, CanaryPods) then true
      else if m.tokenRate && !EnoughUsage(req, provider, CanaryPods) then false
      else if m.tokenRate && m.compareToPrimary && UsageUnknown(req, provider, PrimaryPods) then true
      else if m.tokenRate && m.compareToPrimary && !EnoughUsage(req, provider, PrimaryPods) then false
      else if !m.renders || (m.compareToPrimary && !m.primaryRenders) then true
      else MainAnswer(provider, m).Failed? || MainAnswer(provider, m).count > 1
  {
    UsageSuffices(req, provider, m);
    EvidenceIsOneNumber(m, MainAnswer(provider, m));
  }

  method RunOne(req: Request, provider: Provider, m: Metric) returns (check: Verdict)
    ensures check == CheckOf(req, provider, m)
  {
    if m.tokenRate {
      var contexts := [CanaryPods];
      if m.compareToPrimary {
        contexts := contexts + [PrimaryPods];
      }
      for i := 0 to |contexts|
        invariant UsageVerdict(req, provider, contexts) == UsageVerdict(req, provider, contexts[i..])
      {
        assert contexts[i..][1..] == contexts[i + 1..];
        var answer := if req.usageRenders then provider(UsageSamples(contexts[i])) else Failed;
        if answer.Failed? {
          return Error;
        }
        if answer.count != 1 || !answer.value.Fin? || answer.value.r < UsageFloor(req) as real {
          return Inconclusive;
        }
      }
    }
    if !m.renders {
      return Error;
    }
    var query := Plain(m.id);
    if m.compareToPrimary {
      if !m.primaryRenders {
        return Error;
      }
      query := RatioToPrimary(m.id);
    }
    return Evaluate(m, provider(query));
  }

  method Run(req: Request, provider: Provider) returns (checks: seq<Verdict>)
    ensures checks == Checks(req, provider)
  {
    var gate := GateOnTraffic(req, provider);
    if gate.Shut? {
      checks := AllChecks(req.metrics, gate.verdict);
      return;
    }
    checks := [];
    for i := 0 to |req.metrics|
      invariant |checks| == i
      invariant forall j :: 0 <= j < i ==> checks[j] == CheckOf(req, provider, req.metrics[j])
    {
      var check := RunOne(req, provider, req.metrics[i]);
      checks := checks + [check];
    }
  }

  // ---- No evidence, no judgement -----------------------------------------

  /** The canary's request rate is one finite number at or above the floor. */
  predicate EnoughTraffic(req: Request, provider: Provider)
  {
    var a := RateAnswer(req, provider);
    a.Sample? && a.count == 1 && a.value.Fin? && a.value.r >= req.minRequestRate
  }

  /** Without enough traffic a round can neither pass nor fail, whatever the metrics
      would have said; and an unreachable provider is an error, not a verdict. */
  lemma NoTrafficNoVerdict(req: Request, provider: Provider)
    requires req.minRequestRate > 0.0 && !EnoughTraffic(req, provider)
    ensures RoundOf(req, provider) in {Error, Inconclusive}
    ensures RateAnswer(req, provider).Failed? ==> RoundOf(req, provider) == Error
  {
  }

  /** A round passes exactly when the gate is open, something is checked, and every
      check passes. */
  lemma RoundPassesIff(req: Request, provider: Provider)
    ensures RoundOf(req, provider) == Pass <==>
      && (req.minRequestRate <= 0.0 || EnoughTraffic(req, provider))
      && req.metrics != []
      && forall i :: 0 <= i < |req.metrics| ==> CheckOf(req, provider, req.metrics[i]) == Pass
  {
    var checks := Checks(req, provider);
    WorstDecides(checks);
    if GateOnTraffic(req, provider).Opened? {
      assert forall i :: 0 <= i < |req.metrics| ==> checks[i] == CheckOf(req, provider, req.metrics[i]);
    } else if req.metrics != [] {
      assert checks[0] == GateOnTraffic(req, provider).verdict;
    }
  }

  /** The request rate could not be asked for. */
  predicate TrafficUnknown(req: Request, provider: Provider)
  {
    req.minRequestRate > 0.0 && (!req.rateRenders || provider(RequestRate).Failed?)
  }

  /** There is no floor, or the rate is one finite number at or above it. */
  predicate TrafficSuffices(req: Request, provider: Provider)
  {
    || req.minRequestRate <= 0.0
    || (req.rateRenders && IsEvidence(provider(RequestRate)) && provider(RequestRate).value.r >= req.minRequestRate)
  }

  lemma GateIsExact(req: Request, provider: Provider)
    ensures GateOnTraffic(req, provider) ==
      if TrafficSuffices(req, provider) then Opened
      else if TrafficUnknown(req, provider) then Shut(Error)
      else Shut(Inconclusive)
    ensures TrafficSuffices(req, provider) <==> req.minRequestRate <= 0.0 || EnoughTraffic(req, provider)
  {
  }

  /** When a round errs, fails or says nothing. Too little traffic is none of the provider's
      fault and spends no error budget. */
  lemma RoundIsExact(req: Request, provider: Provider)
    ensures RoundOf(req, provider) == Error <==>
      || req.metrics == [] || TrafficUnknown(req, provider)
      || (TrafficSuffices(req, provider)
          && exists i :: 0 <= i < |req.metrics| && CheckOf(req, provider, req.metrics[i]) == Error)
    ensures RoundOf(req, provider) == Fail <==>
      && TrafficSuffices(req, provider)
      && (exists i :: 0 <= i < |req.metrics| && CheckOf(req, provider, req.metrics[i]) == Fail)
      && forall i :: 0 <= i < |req.metrics| ==> CheckOf(req, provider, req.metrics[i]) != Error
    ensures RoundOf(req, provider) == Inconclusive <==>
      && req.metrics != [] && !TrafficUnknown(req, provider)
      && (TrafficSuffices(req, provider) ==>
            && (exists i :: 0 <= i < |req.metrics| && CheckOf(req, provider, req.metrics[i]) == Inconclusive)
            && forall i :: 0 <= i < |req.metrics| ==> CheckOf(req, provider, req.metrics[i]) in {Pass, Inconclusive})
  {
    hide CheckOf, GateOnTraffic;
    GateIsExact(req, provider);
    var checks := Checks(req, provider);
    WorstDecides(checks);
    if TrafficSuffices(req, provider) {
      assert |checks| == |req.metrics|;
      assert forall i :: 0 <= i < |checks| ==> checks[i] == CheckOf(req, provider, req.metrics[i]) && checks[i] in checks;
    } else if req.metrics != [] {
      assert checks[0] == GateOnTraffic(req, provider).verdict && forall v :: v in checks ==> v == checks[0];
    }
  }

  /** Such a round advances nothing and leaves the failure budget alone. */
  lemma NoVerdictNoProgress(p: Plan, inp: Input)
    requires Resolved(p) && p.onInconclusive != PromoteOn && Sound(p, inp.st, inp.now)
    requires Consumes(p, inp) && inp.round in {Ran(Error), Ran(Inconclusive)}
    ensures var out := Next(p, inp);
      && out.action in {Wait, Rollback}
      && out.st.step == inp.st.step && out.st.counters.failed == inp.st.counters.failed
      && out.reason !in {ChecksFailed, CanaryRolledBack}
  {
  }

  /** A provider that always fails. */
  ghost predicate Unreachable(provider: Provider) { forall q :: provider(q) == Failed }

  lemma OutageIsError(req: Request, provider: Provider)
    requires Unreachable(provider)
    ensures RoundOf(req, provider) == Error
  {
  }

  /** Every round of the run came from this provider. */
  ghost predicate RoundsFrom(tr: Trace, req: Request, provider: Provider)
  {
    forall j :: 0 <= j < |tr.ins| && tr.ins[j].round.Ran? ==> tr.ins[j].round.verdict == RoundOf(req, provider)
  }

  lemma {:induction false} OutageHistory(p: Plan, tr: Trace, req: Request, provider: Provider, i: int)
    requires Resolved(p) && IsRun(p, tr) && 0 <= i < |tr.ins| && Unreachable(provider) && RoundsFrom(tr, req, provider)
    ensures forall k :: 0 <= k < |History(tr, i)| ==> History(tr, i)[k] in {Reset, Round(Error)}
    decreases i
  {
    hide Observe, Decide, Consumes, Resets, Unreachable, RoundOf;
    OutageIsError(req, provider);
    if i > 0 {
      OutageHistory(p, tr, req, provider, i - 1);
    }
    var now := Happened(p, tr.ins[i]);
    assert forall k :: 0 <= k < |now| ==> now[k] in {Reset, Round(Error)};
  }

  /** While the provider is unreachable, the only rollback the analysis causes is
      AnalysisError, and it comes with exactly the ConsecutiveErrorLimit-th round since
      the candidate last became ready. */
  lemma OutageRollsBackAtTheLimit(p: Plan, tr: Trace, req: Request, provider: Provider, i: int)
    requires Resolved(p) && IsRun(p, tr) && 0 <= i < |tr.ins| && Unreachable(provider) && RoundsFrom(tr, req, provider)
    ensures Consumes(p, tr.ins[i]) ==>
      var rounds := |TrailingIn(History(tr, i), ERRORS)|;
      && 1 <= rounds <= p.errorLimit && tr.outs[i].reason == AnalysisError
      && (tr.outs[i].action == Rollback <==> rounds == p.errorLimit)
    ensures tr.outs[i].action == Rollback ==> tr.outs[i].reason in {AnalysisError, CanaryAborted, DeadlineExceeded}
    ensures tr.outs[i].action !in {Advance, Pause} && tr.outs[i].action != Promote
  {
    hide Observe, Decide, Consumes, History, RoundOf;
    OutageIsError(req, provider);
    SoundRun(p, tr, i);
    assert Step(p, tr, i);
    if Consumes(p, tr.ins[i]) {
      OutageHistory(p, tr, req, provider, i);
      OutageEndsAtTheLimit(p, tr, i);
    }
    if tr.outs[i].action == Rollback {
      RollbackCauses(p, tr.ins[i]);
    }
    NeverClimbs(p, tr, req, provider, i);
  }

  /** Nothing is ever promoted, nor even advanced, without an answer. */
  lemma {:induction false} NeverClimbs(p: Plan, tr: Trace, req: Request, provider: Provider, i: int)
    requires Resolved(p) && IsRun(p, tr) && 0 <= i < |tr.ins| && Unreachable(provider) && RoundsFrom(tr, req, provider)
    ensures tr.outs[i].action !in {Advance, Pause, Promote}
    decreases i
  {
    hide Observe, Decide, Consumes, RoundOf;
    OutageIsError(req, provider);
    SoundRun(p, tr, i);
    assert Step(p, tr, i);
    ActionFitsPhase(p, tr.ins[i]);
    if i > 0 {
      NeverClimbs(p, tr, req, provider, i - 1);
      assert Step(p, tr, i - 1);
      ActionFitsPhase(p, tr.ins[i - 1]);
    }
    if !Continues(tr.outs[i]) {
      NotContinued(p, tr.ins[i]);
      SoundStep(p, tr.ins[i], tr.ins[i].now);
    } else if Consumes(p, tr.ins[i]) {
      ConsumedRound(p, tr.ins[i]);
      JudgedPosition(p, tr.ins[i]);
    } else {
      ContinuedAttempt(p, tr.ins[i]);
      UnconsumedPhase(p, tr.ins[i]);
    }
  }
}
