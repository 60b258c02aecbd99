/** The autoscaler's decision and its stabilization history
    (internal/autoscale/recommend.go). Arithmetic is over reals, with the three
    non-numbers spelled out; times are whole seconds. */
module Autoscale {
  import opened Readings
  import opened Weights

  datatype Config = Config(minReplicas: int, maxReplicas: int, target: real, tolerance: real, up: int, down: int)

  datatype Recommendation = Recommendation(time: int, replicas: int)

  datatype Direction = Level | Upward | Downward

  datatype Reason = NoMetrics | WithinTolerance | ScaleUp | ScaleDown | Stabilized

  /** One poll. */
  datatype Poll = Poll(now: int, ready: int, valid: bool, value: Reading)

  datatype Output = Output(
    replicas: int, changed: bool, direction: Direction, raw: int, valid: bool,
    history: seq<Recommendation>, reason: Reason)

  const MAX_INT32 := 0x7fff_ffff
  const MAX_HISTORY := 32

  function Clamp(n: int, lo: int, hi: int): int
  {
    var floor := Max(lo, 1);
    Min(Max(n, floor), Max(hi, floor))
  }

  function Bounded(cfg: Config, n: int): int { Clamp(n, cfg.minReplicas, cfg.maxReplicas) }

  function Ceiling(r: real): int { -((-r).Floor) }

  function CeilToInt32(v: Reading): int
  {
    match v
    case NaN => 0
    case NegInf => 0
    case PosInf => MAX_INT32
    case Fin(r) =>
      if r <= 0.0 then 0 else if r >= MAX_INT32 as real then MAX_INT32 else Ceiling(r)
  }

  function DirectionOf(from: int, to: int): Direction
  {
    if to > from then Upward else if to < from then Downward else Level
  }

  // ---- History -----------------------------------------------------------

  /** The entries stamped within [from, to]. */
  function Within(h: seq<Recommendation>, from: int, to: int): seq<Recommendation>
  {
    if h == [] then []
    else
      var rest, e := Within(h[..|h| - 1], from, to), h[|h| - 1];
      if from <= e.time <= to then rest + [e] else rest
  }

  /** The entries stamped at or after `from`. */
  function Since(h: seq<Recommendation>, from: int): seq<Recommendation>
  {
    if h == [] then []
    else
      var rest, e := Since(h[..|h| - 1], from), h[|h| - 1];
      if from <= e.time then rest + [e] else rest
  }

  function Newest(h: seq<Recommendation>, n: nat): seq<Recommendation>
  {
    if |h| > n then h[|h| - n..] else h
  }

  function Window(cfg: Config): int { Max(cfg.up, cfg.down) }

  /** What prune keeps. */
  function Retained(h: seq<Recommendation>, now: int, cfg: Config): seq<Recommendation>
  {
    Newest(Within(h, now - Window(cfg), now), MAX_HISTORY)
  }

  function Smallest(h: seq<Recommendation>): int
  {
    if h == [] then MAX_INT32 else Min(Smallest(h[..|h| - 1]), h[|h| - 1].replicas)
  }

  function Largest(h: seq<Recommendation>): int
  {
    if h == [] then 0 else Max(Largest(h[..|h| - 1]), h[|h| - 1].replicas)
  }

  function LowestSince(h: seq<Recommendation>, cutoff: int): int
  {
    var w := Since(h, cutoff);
    if w == [] then 0 else Smallest(w)
  }

  function HighestSince(h: seq<Recommendation>, cutoff: int): int
  {
    var w := Since(h, cutoff);
    if w == [] then MAX_INT32 else Largest(w)
  }

  method MinOver(history: seq<Recommendation>, cutoff: int) returns (out: int)
    ensures out == LowestSince(history, cutoff)
  {
    out := MAX_INT32;
    var found := false;
    for i := 0 to |history|
      invariant out == Smallest(Since(history[..i], cutoff))
      invariant found <==> Since(history[..i], cutoff) != []
    {
      SinceSnoc(history, i, cutoff);
      if history[i].time >= cutoff {
        SmallestSnoc(Since(history[..i], cutoff), history[i]);
        found := true;
        out := Min(out, history[i].replicas);
      }
    }
    assert history[..|history|] == history;
    if !found {
      out := 0;
    }
  }

  method MaxOver(history: seq<Recommendation>, cutoff: int) returns (out: int)
    ensures out == HighestSince(history, cutoff)
  {
    out := 0;
    var found := false;
    for i := 0 to |history|
      invariant out == Largest(Since(history[..i], cutoff))
      invariant found <==> Since(history[..i], cutoff) != []
    {
      SinceSnoc(history, i, cutoff);
      if history[i].time >= cutoff {
        LargestSnoc(Since(history[..i], cutoff), history[i]);
        found := true;
        out := Max(out, history[i].replicas);
      }
    }
    assert history[..|history|] == history;
    if !found {
      out := MAX_INT32;
    }
  }

  method Prune(history: seq<Recommendation>, now: int, cfg: Config) returns (out: seq<Recommendation>)
    ensures out == Retained(history, now, cfg)
  {
    var cutoff := now - Window(cfg);
    out := [];
    for i := 0 to |history|
      invariant out == Within(history[..i], cutoff, now)
    {
      assert history[..i + 1][..i] == history[..i];
      if cutoff <= history[i].time <= now {
        out := out + [history[i]];
      }
    }
    assert history[..|history|] == history;
    if |out| > MAX_HISTORY {
      out := out[|out| - MAX_HISTORY..];
    }
  }

  lemma SinceSnoc(h: seq<Recommendation>, i: int, from: int)
    requires 0 <= i < |h|
    ensures Since(h[..i + 1], from) == if from <= h[i].time then Since(h[..i], from) + [h[i]] else Since(h[..i], from)
  {
    assert h[..i + 1][..i] == h[..i];
  }

  lemma SmallestSnoc(h: seq<Recommendation>, e: Recommendation)
    ensures Smallest(h + [e]) == Min(Smallest(h), e.replicas)
  {
  }

  lemma LargestSnoc(h: seq<Recommendation>, e: Recommendation)
    ensures Largest(h + [e]) == Max(Largest(h), e.replicas)
  {
  }

  // ---- The decision ------------------------------------------------------

  function Stabilize(raw: int, current: int, history: seq<Recommendation>, now: int, cfg: Config): int
  {
    if raw > current then
      if cfg.up <= 0 then raw else Max(LowestSince(history, now - cfg.up), current)
    else if raw < current then
      if cfg.down <= 0 then raw else Min(HighestSince(history, now - cfg.down), current)
    else current
  }

  /** The poll yields a usable per-pod figure. */
  predicate Measured(cfg: Config, poll: Poll) { poll.valid && poll.ready >= 1 && cfg.target > 0.0 }

  /** The per-pod value relative to the target. */
  function Ratio(cfg: Config, poll: Poll): Reading
    requires Measured(cfg, poll)
  {
    match poll.value
    case Fin(r) => Fin((r / poll.ready as real) / cfg.target)
    case other => other
  }

  predicate InTolerance(cfg: Config, ratio: Reading)
  {
    ratio.Fin? && -cfg.tolerance <= ratio.r - 1.0 <= cfg.tolerance
  }

  function Scaled(poll: Poll, ratio: Reading): Reading
  {
    match ratio case Fin(r) => Fin(poll.ready as real * r) case other => other
  }

  function Recommend(cfg: Config, current0: int, history: seq<Recommendation>, poll: Poll): Output
  {
    var current := Bounded(cfg, current0);
    if !Measured(cfg, poll) then
      Output(current, current != current0, DirectionOf(current0, current), current, false,
             Retained(history, poll.now, cfg), NoMetrics)
    else
      var ratio := Ratio(cfg, poll);
      if InTolerance(cfg, ratio) then
        Output(current, current != current0, DirectionOf(current0, current), current, true,
               Retained(history + [Recommendation(poll.now, current)], poll.now, cfg), WithinTolerance)
      else
        var raw := Bounded(cfg, CeilToInt32(Scaled(poll, ratio)));
        var kept := Retained(history + [Recommendation(poll.now, raw)], poll.now, cfg);
        var replicas := Bounded(cfg, Stabilize(raw, current, kept, poll.now, cfg));
        Output(replicas, replicas != current0, DirectionOf(current, replicas), raw, true, kept,
               if replicas > current then ScaleUp else if replicas < current then ScaleDown else Stabilized)
  }

  /** The ready count cancels: the recommendation is the fleet's demand over the
      per-pod target, rounded up. */
  lemma ReadyCountCancels(cfg: Config, poll: Poll)
    requires Measured(cfg, poll) && poll.value.Fin?
    ensures Scaled(poll, Ratio(cfg, poll)) == Fin(poll.value.r / cfg.target)
  {
  }
}
