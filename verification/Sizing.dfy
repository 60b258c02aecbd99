/** What a recommendation means to whoever wrote the configuration
    (internal/autoscale/recommend.go:193-299, 329-352, 416-444): the bounds, the target and
    the tolerance in their own terms. */
module Sizing {
  import opened Readings
  import opened Weights
  import opened Autoscale
  import opened AutoscaleRuns

  /** The smallest and the largest fleet allowed: never none, and the minimum wins over a
      maximum below it. */
  function Lowest(cfg: Config): int { if cfg.minReplicas < 1 then 1 else cfg.minReplicas }

  function Highest(cfg: Config): int
  {
    if cfg.maxReplicas < Lowest(cfg) then Lowest(cfg) else cfg.maxReplicas
  }

  /** The nearest fleet allowed. */
  function Nearest(cfg: Config, n: int): int
  {
    if n < Lowest(cfg) then Lowest(cfg) else if n > Highest(cfg) then Highest(cfg) else n
  }

  lemma BoundedIsNearest(cfg: Config, n: int)
    ensures Bounded(cfg, n) == Nearest(cfg, n) && Lowest(cfg) <= Bounded(cfg, n) <= Highest(cfg)
  {
  }

  /** The goal is the smallest fleet allowed that brings the load of a pod down to the
      target, or the largest one if none does. */
  lemma GoalIsSmallestEnough(cfg: Config, v: real)
    requires cfg.target > 0.0 && Int32Bounds(cfg)
    ensures var g := Goal(cfg, v);
      && Lowest(cfg) <= g <= Highest(cfg)
      && (g < Highest(cfg) ==> g as real * cfg.target >= v)
      && (g > Lowest(cfg) ==> (g - 1) as real * cfg.target < v)
  {
    hide CeilToInt32;
    var x := v / cfg.target;
    CeilingIsExact(x);
    BoundedIsNearest(cfg, CeilToInt32(Fin(x)));
    var g := Goal(cfg, v);
    if g < Highest(cfg) {
      assert x <= g as real;
      LoadIsBelow(cfg.target, v, g as real);
    }
    if g > Lowest(cfg) {
      assert (g - 1) as real < x;
      LoadIsBelow(cfg.target, v, (g - 1) as real);
    }
  }

  lemma LoadIsBelow(t: real, v: real, n: real)
    requires t > 0.0
    ensures v / t <= n <==> v <= n * t
  {
    assert v == (v / t) * t;
  }

  lemma CeilingIsExact(x: real)
    ensures var n := CeilToInt32(Fin(x));
      && 0 <= n <= MAX_INT32
      && (n < MAX_INT32 ==> x <= n as real) && (n > 0 ==> (n - 1) as real < x)
  {
  }

  /** The per-pod load is within the tolerance of the target. */
  predicate CloseToTarget(cfg: Config, poll: Poll)
  {
    && poll.value.Fin? && poll.ready >= 1
    && (1.0 - cfg.tolerance) * cfg.target * poll.ready as real <= poll.value.r
    && poll.value.r <= (1.0 + cfg.tolerance) * cfg.target * poll.ready as real
  }

  lemma ToleranceIsAroundTarget(cfg: Config, poll: Poll)
    requires poll.valid && poll.ready >= 1 && cfg.target > 0.0
    ensures InTolerance(cfg, Ratio(cfg, poll)) <==> CloseToTarget(cfg, poll)
  {
    if poll.value.Fin? {
      var pods, v := poll.ready as real, poll.value.r;
      PerPod(v, pods, cfg.target, 1.0 - cfg.tolerance);
      PerPod(v, pods, cfg.target, 1.0 + cfg.tolerance);
    }
  }

  lemma PerPod(v: real, pods: real, t: real, x: real)
    requires pods > 0.0 && t > 0.0
    ensures x <= (v / pods) / t <==> x * t * pods <= v
    ensures (v / pods) / t <= x <==> v <= x * t * pods
  {
    var y := (v / pods) / t;
    assert y * t == v / pods && (v / pods) * pods == v;
    assert x * t * pods - y * t * pods == (x - y) * t * pods;
  }

  /** What a metric reading asks for. */
  function Wanted(cfg: Config, value: Reading): int
    requires cfg.target > 0.0
  {
    match value
    case Fin(v) => Goal(cfg, v)
    case PosInf => Highest(cfg)
    case NaN => Lowest(cfg)
    case NegInf => Lowest(cfg)
  }

  /** The fleet stays within its bounds on every poll. Without a measurement, and close to
      the target, it also stays where it is; anything else is a recommendation for what the
      reading asks for. */
  lemma PollMeans(cfg: Config, current: int, h: seq<Recommendation>, poll: Poll)
    requires Int32Bounds(cfg)
    ensures var out := Recommend(cfg, current, h, poll);
      && Lowest(cfg) <= out.replicas <= Highest(cfg)
      && (out.valid <==> poll.valid && poll.ready >= 1 && cfg.target > 0.0)
      && (if !out.valid then
            out.replicas == out.raw == Nearest(cfg, current) && out.reason == NoMetrics
          else if CloseToTarget(cfg, poll) then
            out.replicas == out.raw == Nearest(cfg, current) && out.reason == WithinTolerance
          else
            && out.raw == Wanted(cfg, poll.value)
            && out.reason == (if out.replicas > Nearest(cfg, current) then ScaleUp
                              else if out.replicas < Nearest(cfg, current) then ScaleDown
                              else Stabilized))
  {
    hide Retained, Stabilize, InTolerance, Ratio, CeilToInt32;
    BoundedIsNearest(cfg, current);
    DecisionIsBetween(cfg, current, h, poll);
    BoundedIsNearest(cfg, Recommend(cfg, current, h, poll).replicas);
    if poll.valid && poll.ready >= 1 && cfg.target > 0.0 {
      ToleranceIsAroundTarget(cfg, poll);
      ReadingIsWanted(cfg, poll);
    }
  }

  /** What is reported of a decision: whether it differs from the count as it stands, and
      which way it goes, seen from the bounded count if it was recommended and from the
      count as it stands if not. */
  lemma ReportIsExact(cfg: Config, current: int, h: seq<Recommendation>, poll: Poll)
    requires Int32Bounds(cfg)
    ensures var out := Recommend(cfg, current, h, poll);
      var from := if out.valid && !CloseToTarget(cfg, poll) then Nearest(cfg, current) else current;
      && (out.changed <==> out.replicas != current)
      && (out.direction == Upward <==> out.replicas > from)
      && (out.direction == Downward <==> out.replicas < from)
  {
    hide Retained, Stabilize, InTolerance, Ratio, CeilToInt32;
    BoundedIsNearest(cfg, current);
    if poll.valid && poll.ready >= 1 && cfg.target > 0.0 {
      ToleranceIsAroundTarget(cfg, poll);
    }
  }

  lemma ReadingIsWanted(cfg: Config, poll: Poll)
    requires poll.valid && poll.ready >= 1 && cfg.target > 0.0 && Int32Bounds(cfg)
    ensures Bounded(cfg, CeilToInt32(Scaled(poll, Ratio(cfg, poll)))) == Wanted(cfg, poll.value)
  {
    hide Goal;
    if poll.value.Fin? {
      ReadyCountCancels(cfg, poll);
      GoalIs(cfg, poll.value.r);
    } else {
      BoundedIsNearest(cfg, CeilToInt32(poll.value));
    }
  }

  lemma GoalIs(cfg: Config, v: real)
    requires cfg.target > 0.0
    ensures Goal(cfg, v) == Bounded(cfg, CeilToInt32(Fin(v / cfg.target)))
  {
  }

  lemma {:induction false} LargestIsAttained(h: seq<Recommendation>)
    ensures Largest(h) == 0 || exists i :: 0 <= i < |h| && h[i].replicas == Largest(h)
  {
    if h != [] {
      var init := h[..|h| - 1];
      LargestIsAttained(init);
      if Largest(h) != 0 && h[|h| - 1].replicas != Largest(h) {
        var i :| 0 <= i < |init| && init[i].replicas == Largest(init);
        assert h[i].replicas == Largest(h);
      }
    }
  }

  lemma {:induction false} SmallestIsAttained(h: seq<Recommendation>)
    ensures Smallest(h) == MAX_INT32 || exists i :: 0 <= i < |h| && h[i].replicas == Smallest(h)
  {
    if h != [] {
      var init := h[..|h| - 1];
      SmallestIsAttained(init);
      if Smallest(h) != MAX_INT32 && h[|h| - 1].replicas != Smallest(h) {
        var i :| 0 <= i < |init| && init[i].replicas == Smallest(init);
        assert h[i].replicas == Smallest(h);
      }
    }
  }

  /** The history has this size among what was recommended since `from`. */
  ghost predicate Remembers(h: seq<Recommendation>, from: int, n: int)
  {
    exists e :: e in h && e.time >= from && e.replicas == n
  }

  /** A recommendation is followed at once where there is no window, and otherwise as far
      as its window allows: to a size that was itself recommended within the window. */
  lemma DecisionIsTight(cfg: Config, current: int, h: seq<Recommendation>, poll: Poll)
    requires Int32Bounds(cfg) && Recommend(cfg, current, h, poll).reason !in {NoMetrics, WithinTolerance}
    ensures var out, c := Recommend(cfg, current, h, poll), Nearest(cfg, current);
      && (out.raw < c ==>
            if cfg.down <= 0 then out.replicas == out.raw
            else out.replicas == c || Remembers(out.history, poll.now - cfg.down, out.replicas))
      && (out.raw > c ==>
            if cfg.up <= 0 then out.replicas == out.raw
            else out.replicas == c || Remembers(out.history, poll.now - cfg.up, out.replicas))
      && (out.raw == c ==> out.replicas == c)
  {
    hide Ratio, Scaled, CeilToInt32, InTolerance, Retained, Since, Largest, Smallest, Remembers;
    var out, c := Recommend(cfg, current, h, poll), Nearest(cfg, current);
    BoundedIsNearest(cfg, current);
    PollMeans(cfg, current, h, poll);
    DecisionIsBetween(cfg, current, h, poll);
    if out.raw < c && cfg.down > 0 {
      HighestIsRemembered(cfg, h, Recommendation(poll.now, out.raw), poll.now - cfg.down);
    } else if out.raw > c && cfg.up > 0 {
      LowestIsRemembered(cfg, h, Recommendation(poll.now, out.raw), poll.now - cfg.up);
    }
  }

  lemma HighestIsRemembered(cfg: Config, h: seq<Recommendation>, own: Recommendation, from: int)
    requires Window(cfg) >= 0 && from <= own.time && own.replicas >= 1
    ensures var kept := Retained(h + [own], own.time, cfg);
      HighestSince(kept, from) >= own.replicas && Remembers(kept, from, HighestSince(kept, from))
  {
    hide Since, Retained;
    var kept := Retained(h + [own], own.time, cfg);
    var w := Since(kept, from);
    OwnEntryIsKept(cfg, h, own, from);
    LargestBounds(w);
    LargestIsAttained(w);
    SinceMembers(kept, from);
    assert w[|w| - 1].replicas == own.replicas;
    var i :| 0 <= i < |w| && w[i].replicas == Largest(w);
    assert w[i] in w;
  }

  lemma LowestIsRemembered(cfg: Config, h: seq<Recommendation>, own: Recommendation, from: int)
    requires Window(cfg) >= 0 && from <= own.time && own.replicas <= MAX_INT32
    ensures var kept := Retained(h + [own], own.time, cfg);
      LowestSince(kept, from) <= own.replicas && Remembers(kept, from, LowestSince(kept, from))
  {
    hide Since, Retained;
    var kept := Retained(h + [own], own.time, cfg);
    var w := Since(kept, from);
    OwnEntryIsKept(cfg, h, own, from);
    SmallestBounds(w);
    SmallestIsAttained(w);
    SinceMembers(kept, from);
    assert w[|w| - 1].replicas == own.replicas;
    if Smallest(w) == MAX_INT32 {
      assert w[|w| - 1] in w;
    } else {
      var i :| 0 <= i < |w| && w[i].replicas == Smallest(w);
      assert w[i] in w;
    }
  }

  /** Constant demand is met: once no poll of the window came close to the target, the fleet
      is the smallest one that serves it within bounds. */
  lemma ConstantDemandIsMet(cfg: Config, start: int, polls: seq<Poll>, v: real)
    requires cfg.target > 0.0 && Int32Bounds(cfg) && Constant(polls, v) && ForwardClock(polls) && polls != []
    requires Measured(cfg, polls[|polls| - 1]) && !CloseToTarget(cfg, polls[|polls| - 1])
    requires forall i :: 0 <= i < |polls| && Measured(cfg, polls[i]) ==>
               polls[i].now >= polls[|polls| - 1].now - Max(cfg.up, cfg.down) ==> !CloseToTarget(cfg, polls[i])
    ensures var n := After(cfg, start, polls).current;
      && Lowest(cfg) <= n <= Highest(cfg)
      && (n < Highest(cfg) ==> n as real * cfg.target >= v)
      && (n > Lowest(cfg) ==> (n - 1) as real * cfg.target < v)
  {
    hide CloseToTarget, InTolerance, Ratio, Goal, After;
    forall i | 0 <= i < |polls| && Measured(cfg, polls[i])
      ensures InTolerance(cfg, Ratio(cfg, polls[i])) <==> CloseToTarget(cfg, polls[i])
    {
      ToleranceIsAroundTarget(cfg, polls[i]);
    }
    ConstantDemandArrives(cfg, start, polls, v);
    GoalIsSmallestEnough(cfg, v);
  }
}
