/** Whole runs of the autoscaler (internal/autoscale/recommend.go): the kept history
    is a faithful cache of the full log, and constant demand is approached without
    overshoot. */
module AutoscaleRuns {
  import opened Readings
  import opened Weights
  import opened Autoscale

  // ---- Windows of an ordered log -----------------------------------------

  ghost predicate Ordered(h: seq<Recommendation>)
  {
    forall i, j :: 0 <= i <= j < |h| ==> h[i].time <= h[j].time
  }

  ghost predicate NotAfter(h: seq<Recommendation>, now: int)
  {
    forall i :: 0 <= i < |h| ==> h[i].time <= now
  }

  lemma {:induction false} WithinIsSince(h: seq<Recommendation>, from: int, now: int)
    requires NotAfter(h, now)
    ensures Within(h, from, now) == Since(h, from)
  {
    if h != [] {
      WithinIsSince(h[..|h| - 1], from, now);
    }
  }

  lemma {:induction false} SinceAppend(a: seq<Recommendation>, b: seq<Recommendation>, from: int)
    ensures Since(a + b, from) == Since(a, from) + Since(b, from)
  {
    if b == [] {
      assert a + b == a;
    } else {
      assert (a + b)[..|a + b| - 1] == a + b[..|b| - 1];
      SinceAppend(a, b[..|b| - 1], from);
    }
  }

  lemma {:induction false} SinceSince(h: seq<Recommendation>, from: int, later: int)
    requires from <= later
    ensures Since(Since(h, from), later) == Since(h, later)
  {
    if h != [] {
      var init, e := h[..|h| - 1], h[|h| - 1];
      SinceSince(init, from, later);
      if from <= e.time {
        SinceAppend(Since(init, from), [e], later);
        SinceOne(e, later);
      }
    }
  }

  lemma SinceOne(e: Recommendation, from: int)
    ensures Since([e], from) == if from <= e.time then [e] else []
  {
  }

  /** In an ordered log, what is recent is a suffix. */
  lemma {:induction false} SinceIsSuffix(h: seq<Recommendation>, from: int)
    requires Ordered(h)
    ensures |Since(h, from)| <= |h| && Since(h, from) == h[|h| - |Since(h, from)|..]
    decreases |h|
  {
    if h != [] {
      var init, e := h[..|h| - 1], h[|h| - 1];
      if e.time < from {
        NothingRecent(h, from);
      } else {
        SinceIsSuffix(init, from);
        assert h[|init| - |Since(init, from)|..] == init[|init| - |Since(init, from)|..] + [e];
      }
    }
  }

  lemma {:induction false} NothingRecent(h: seq<Recommendation>, from: int)
    requires forall i :: 0 <= i < |h| ==> h[i].time < from
    ensures Since(h, from) == []
  {
    if h != [] {
      NothingRecent(h[..|h| - 1], from);
    }
  }

  /** Capping and windowing an ordered log commute. */
  lemma SinceNewest(h: seq<Recommendation>, n: nat, from: int)
    requires Ordered(h)
    ensures Since(Newest(h, n), from) == Newest(Since(h, from), n)
  {
    hide Since, Ordered;
    if |h| > n {
      var a, b := h[..|h| - n], h[|h| - n..];
      OrderedParts(h, |h| - n);
      assert h == a + b;
      SinceAppend(a, b, from);
      SinceIsSuffix(b, from);
      if Since(a, from) == [] {
        assert Since(h, from) == Since(b, from);
      } else {
        AllRecentAfter(a, from);
        LaterIsRecent(h, |h| - n, from);
        EverythingRecent(b, from);
        assert (Since(a, from) + b)[|Since(a, from)|..] == b;
      }
    } else {
      SinceIsSuffix(h, from);
    }
  }

  lemma OrderedParts(h: seq<Recommendation>, cut: int)
    requires Ordered(h) && 0 <= cut <= |h|
    ensures Ordered(h[..cut]) && Ordered(h[cut..])
  {
  }

  lemma LaterIsRecent(h: seq<Recommendation>, cut: int, from: int)
    requires Ordered(h) && 0 < cut <= |h| && h[..cut][cut - 1].time >= from
    ensures forall i :: 0 <= i < |h[cut..]| ==> h[cut..][i].time >= from
  {
  }

  lemma {:induction false} AllRecentAfter(h: seq<Recommendation>, from: int)
    requires Ordered(h) && Since(h, from) != []
    ensures h[|h| - 1].time >= from
  {
    if h[|h| - 1].time < from {
      NothingRecent(h, from);
    }
  }

  lemma {:induction false} EverythingRecent(h: seq<Recommendation>, from: int)
    requires forall i :: 0 <= i < |h| ==> h[i].time >= from
    ensures Since(h, from) == h
  {
    if h != [] {
      EverythingRecent(h[..|h| - 1], from);
    }
  }

  lemma NewestAppend(a: seq<Recommendation>, b: seq<Recommendation>, n: nat)
    ensures Newest(Newest(a, n) + b, n) == Newest(a + b, n)
  {
  }

  /** One poll of the cache: windowing and capping what was already windowed and
      capped loses nothing that the full log would have kept. */
  lemma CacheStep(log: seq<Recommendation>, more: seq<Recommendation>, from: int, from': int, n: nat)
    requires Ordered(log) && from <= from'
    ensures Newest(Since(Newest(Since(log, from), n) + more, from'), n) == Newest(Since(log + more, from'), n)
  {
    var recent := Since(log, from);
    SinceIsSuffix(log, from);
    assert Ordered(recent);
    calc {
      Newest(Since(Newest(recent, n) + more, from'), n);
      { SinceAppend(Newest(recent, n), more, from'); }
      Newest(Since(Newest(recent, n), from') + Since(more, from'), n);
      { SinceNewest(recent, n, from'); }
      Newest(Newest(Since(recent, from'), n) + Since(more, from'), n);
      { NewestAppend(Since(recent, from'), Since(more, from'), n); }
      Newest(Since(recent, from') + Since(more, from'), n);
      { SinceSince(log, from, from'); SinceAppend(log, more, from'); }
      Newest(Since(log + more, from'), n);
    }
  }

  // ---- Runs --------------------------------------------------------------

  /** Where the autoscaler stands: the fleet size, the history it kept, and every
      recommendation it ever made. */
  datatype Position = Position(current: int, history: seq<Recommendation>, log: seq<Recommendation>)

  function Advance(cfg: Config, at: Position, poll: Poll): Position
  {
    var out := Recommend(cfg, at.current, at.history, poll);
    Position(out.replicas, out.history,
             if out.valid then at.log + [Recommendation(poll.now, out.raw)] else at.log)
  }

  function After(cfg: Config, start: int, polls: seq<Poll>): Position
  {
    if polls == [] then Position(start, [], [])
    else Advance(cfg, After(cfg, start, polls[..|polls| - 1]), polls[|polls| - 1])
  }

  ghost predicate ForwardClock(polls: seq<Poll>)
  {
    forall i, j :: 0 <= i <= j < |polls| ==> polls[i].now <= polls[j].now
  }

  /** What this poll looks back over: the kept history or the log, with this poll's own
      recommendation appended. */
  function Extended(h: seq<Recommendation>, cfg: Config, at: Position, poll: Poll): seq<Recommendation>
  {
    var out := Recommend(cfg, at.current, at.history, poll);
    if out.valid then h + [Recommendation(poll.now, out.raw)] else h
  }

  lemma HistoryOfPoll(cfg: Config, at: Position, poll: Poll)
    ensures Advance(cfg, at, poll).history == Retained(Extended(at.history, cfg, at, poll), poll.now, cfg)
    ensures Advance(cfg, at, poll).log == Extended(at.log, cfg, at, poll)
  {
  }

  /** The kept history is the newest 32 entries of the log's window. */
  ghost predicate Cached(at: Position, from: int, now: int)
  {
    && Ordered(at.log) && NotAfter(at.log, now) && NotAfter(at.history, now)
    && at.history == Newest(Since(at.log, from), MAX_HISTORY)
  }

  lemma CachedPoll(cfg: Config, at: Position, poll: Poll, from: int, now: int)
    requires Cached(at, from, now) && now <= poll.now && from <= poll.now - Window(cfg)
    ensures Cached(Advance(cfg, at, poll), poll.now - Window(cfg), poll.now)
  {
    hide Recommend, Since, Newest;
    HistoryOfPoll(cfg, at, poll);
    var out := Recommend(cfg, at.current, at.history, poll);
    var more := if out.valid then [Recommendation(poll.now, out.raw)] else [];
    assert Extended(at.history, cfg, at, poll) == at.history + more;
    assert Extended(at.log, cfg, at, poll) == at.log + more;
    WithinIsSince(at.history + more, poll.now - Window(cfg), poll.now);
    CacheStep(at.log, more, from, poll.now - Window(cfg), MAX_HISTORY);
    RecentNotAfter(at.log + more, poll.now - Window(cfg), MAX_HISTORY, poll.now);
  }

  /** At every point of a run the kept history is exactly the newest 32 entries of the
      log's window: pruning step by step loses nothing else. */
  lemma {:induction false} HistoryIsRecentLog(cfg: Config, start: int, polls: seq<Poll>)
    requires ForwardClock(polls) && polls != []
    ensures var now := polls[|polls| - 1].now; Cached(After(cfg, start, polls), now - Window(cfg), now)
    decreases |polls|
  {
    hide Advance, Cached;
    var init, poll := polls[..|polls| - 1], polls[|polls| - 1];
    var at := After(cfg, start, init);
    if init == [] {
      NothingCached(start, poll.now - Window(cfg), poll.now);
      CachedPoll(cfg, at, poll, poll.now - Window(cfg), poll.now);
    } else {
      var prev := init[|init| - 1].now;
      assert prev == polls[|polls| - 2].now <= poll.now;
      HistoryIsRecentLog(cfg, start, init);
      CachedPoll(cfg, at, poll, prev - Window(cfg), prev);
    }
  }

  lemma NothingCached(start: int, from: int, now: int)
    ensures Cached(Position(start, [], []), from, now)
  {
  }

  lemma RecentNotAfter(h: seq<Recommendation>, from: int, n: nat, now: int)
    requires Ordered(h) && NotAfter(h, now)
    ensures NotAfter(Newest(Since(h, from), n), now)
  {
  }

  // ---- The cache refines the log -----------------------------------------

  /** Position before the last poll, and the decision taken at it. */
  function Before(cfg: Config, start: int, polls: seq<Poll>): Position
    requires polls != []
  {
    After(cfg, start, polls[..|polls| - 1])
  }

  function Last(cfg: Config, start: int, polls: seq<Poll>): Output
    requires polls != []
  {
    var at := Before(cfg, start, polls);
    Recommend(cfg, at.current, at.history, polls[|polls| - 1])
  }

  /** With at most 32 recommendations in the window, the kept history answers every
      stabilization question exactly as the unpruned log would. */
  lemma StabilizationRefinesLog(cfg: Config, start: int, polls: seq<Poll>, raw: int, current: int)
    requires ForwardClock(polls) && polls != []
    requires |Since(After(cfg, start, polls).log, polls[|polls| - 1].now - Window(cfg))| <= MAX_HISTORY
    ensures var at, now := After(cfg, start, polls), polls[|polls| - 1].now;
      Stabilize(raw, current, at.history, now, cfg) == Stabilize(raw, current, at.log, now, cfg)
  {
    hide After;
    var at, now := After(cfg, start, polls), polls[|polls| - 1].now;
    HistoryIsRecentLog(cfg, start, polls);
    SinceSince(at.log, now - Window(cfg), now - cfg.up);
    SinceSince(at.log, now - Window(cfg), now - cfg.down);
  }

  lemma {:induction false} LargestBounds(h: seq<Recommendation>)
    ensures forall i :: 0 <= i < |h| ==> h[i].replicas <= Largest(h)
  {
    if h != [] {
      LargestBounds(h[..|h| - 1]);
      assert forall i :: 0 <= i < |h| - 1 ==> h[i] == h[..|h| - 1][i];
    }
  }

  lemma {:induction false} SmallestBounds(h: seq<Recommendation>)
    ensures forall i :: 0 <= i < |h| ==> Smallest(h) <= h[i].replicas
  {
    if h != [] {
      SmallestBounds(h[..|h| - 1]);
      assert forall i :: 0 <= i < |h| - 1 ==> h[i] == h[..|h| - 1][i];
    }
  }

  /** A poll's own recommendation is the last entry of the history it leaves. */
  lemma OwnEntryIsKept(cfg: Config, h: seq<Recommendation>, own: Recommendation, from: int)
    requires Window(cfg) >= 0 && from <= own.time
    ensures var kept := Retained(h + [own], own.time, cfg);
      kept != [] && kept[|kept| - 1] == own && Since(kept, from) != [] && Since(kept, from)[|Since(kept, from)| - 1] == own
  {
  }

  /** Every decision lies between the current size and what the metric asks for. */
  lemma DecisionIsBetween(cfg: Config, current: int, h: seq<Recommendation>, poll: Poll)
    ensures var out, c := Recommend(cfg, current, h, poll), Bounded(cfg, current);
      Min(c, out.raw) <= out.replicas <= Max(c, out.raw)
    ensures var out := Recommend(cfg, current, h, poll);
      Bounded(cfg, out.replicas) == out.replicas && Bounded(cfg, out.raw) == out.raw
  {
    hide Retained, Since, Ratio, Scaled, CeilToInt32;
    var out, c := Recommend(cfg, current, h, poll), Bounded(cfg, current);
    if out.valid && out.raw != c {
      var own := Recommendation(poll.now, out.raw);
      if out.raw > c && cfg.up > 0 {
        OwnEntryIsKept(cfg, h, own, poll.now - cfg.up);
        SmallestBounds(Since(out.history, poll.now - cfg.up));
      } else if out.raw < c && cfg.down > 0 {
        OwnEntryIsKept(cfg, h, own, poll.now - cfg.down);
        LargestBounds(Since(out.history, poll.now - cfg.down));
      }
    }
  }

  /** No measurement, no change beyond the bounds, and nothing to remember. */
  lemma NoMeasurementNoChange(cfg: Config, current: int, h: seq<Recommendation>, poll: Poll)
    requires !Measured(cfg, poll)
    ensures var out := Recommend(cfg, current, h, poll);
      && out.replicas == Bounded(cfg, current) && !out.valid
      && forall i :: 0 <= i < |out.history| ==> out.history[i] in h
  {
    WithinMembers(h, poll.now - Window(cfg), poll.now);
  }

  lemma {:induction false} WithinMembers(h: seq<Recommendation>, from: int, to: int)
    ensures forall i :: 0 <= i < |Within(h, from, to)| ==> Within(h, from, to)[i] in h
  {
    if h != [] {
      WithinMembers(h[..|h| - 1], from, to);
    }
  }

  /** `changed` is measured from the spec's count but `direction`, once a metric is
      acted on, from the bounded one: the two disagree exactly when the bounds alone move
      the count. */
  lemma ChangedWithoutDirection(cfg: Config, current: int, h: seq<Recommendation>, poll: Poll)
    ensures var out := Recommend(cfg, current, h, poll);
      && (out.changed <==> out.replicas != current)
      && (out.changed && out.direction == Level <==>
            && Measured(cfg, poll) && !InTolerance(cfg, Ratio(cfg, poll))
            && out.replicas == Bounded(cfg, current) != current)
      && (Bounded(cfg, current) == current ==> out.direction == DirectionOf(current, out.replicas))
  {
  }

  /** No decision passes any of the 32 newest recommendations in its window: a scale-down
      never goes below one, a scale-up never above. */
  lemma NewestAreRespected(cfg: Config, start: int, polls: seq<Poll>)
    requires ForwardClock(polls) && polls != []
    ensures var out, before := Last(cfg, start, polls), Bounded(cfg, Before(cfg, start, polls).current);
      var log, now := After(cfg, start, polls).log, polls[|polls| - 1].now;
      && (out.replicas < before && cfg.down > 0 ==>
            forall i :: Max(0, |log| - MAX_HISTORY) <= i < |log| && log[i].time >= now - cfg.down ==>
              log[i].replicas <= out.replicas)
      && (out.replicas > before && cfg.up > 0 ==>
            forall i :: Max(0, |log| - MAX_HISTORY) <= i < |log| && log[i].time >= now - cfg.up ==>
              out.replicas <= log[i].replicas)
  {
    hide Since, Ratio, Scaled, CeilToInt32, Retained, After;
    var at, poll := Before(cfg, start, polls), polls[|polls| - 1];
    var out, c := Last(cfg, start, polls), Bounded(cfg, at.current);
    var after := After(cfg, start, polls);
    DecisionIsBetween(cfg, at.current, at.history, poll);
    LastPoll(cfg, start, polls);
    HistoryIsRecentLog(cfg, start, polls);
    if out.replicas != c {
      assert out.replicas == Bounded(cfg, Stabilize(out.raw, c, after.history, poll.now, cfg));
      RecentIsKept(after.log, after.history, poll.now - Window(cfg), poll.now - cfg.down);
      RecentIsKept(after.log, after.history, poll.now - Window(cfg), poll.now - cfg.up);
      LargestBounds(Since(after.history, poll.now - cfg.down));
      SmallestBounds(Since(after.history, poll.now - cfg.up));
    }
  }

  lemma LastPoll(cfg: Config, start: int, polls: seq<Poll>)
    requires polls != []
    ensures After(cfg, start, polls) == Advance(cfg, Before(cfg, start, polls), polls[|polls| - 1])
  {
  }

  /** The 32 newest entries of the log are in the kept history if they are in a window. */
  lemma RecentIsKept(log: seq<Recommendation>, kept: seq<Recommendation>, from: int, later: int)
    requires Ordered(log) && from <= later && kept == Newest(Since(log, from), MAX_HISTORY)
    ensures forall i :: Max(0, |log| - MAX_HISTORY) <= i < |log| && log[i].time >= later ==>
              log[i] in Since(kept, later)
  {
    hide Since;
    SinceIsSuffix(log, from);
    assert Ordered(Since(log, from));
    SinceNewest(Since(log, from), MAX_HISTORY, later);
    SinceSince(log, from, later);
    SinceIsSuffix(log, later);
    InSince(log, later);
    var recent := Since(log, later);
    forall i | Max(0, |log| - MAX_HISTORY) <= i < |log| && log[i].time >= later
      ensures log[i] in Newest(recent, MAX_HISTORY)
    {
      LaterAreRecent(log, later, i);
      assert log[i] == Newest(recent, MAX_HISTORY)[i - (|log| - |Newest(recent, MAX_HISTORY)|)];
    }
  }

  lemma LaterAreRecent(log: seq<Recommendation>, from: int, i: int)
    requires Ordered(log) && 0 <= i < |log| && log[i].time >= from
    ensures |Since(log, from)| >= |log| - i
  {
    hide Since;
    assert log == log[..i] + log[i..];
    SinceAppend(log[..i], log[i..], from);
    EverythingRecent(log[i..], from);
  }

  /** The last decision of a run keeps the promise of its stabilization window: a
      scale-down goes below no recommendation in it, and a scale-up above none. */
  ghost predicate Respected(cfg: Config, start: int, polls: seq<Poll>)
    requires polls != []
  {
    var out, before := Last(cfg, start, polls), Bounded(cfg, Before(cfg, start, polls).current);
    var log, now := After(cfg, start, polls).log, polls[|polls| - 1].now;
    && (out.replicas < before && cfg.down > 0 ==>
          forall i :: 0 <= i < |log| && log[i].time >= now - cfg.down ==> log[i].replicas <= out.replicas)
    && (out.replicas > before && cfg.up > 0 ==>
          forall i :: 0 <= i < |log| && log[i].time >= now - cfg.up ==> out.replicas <= log[i].replicas)
  }

  /** How many recommendations the window of the last decision holds, its own included. */
  function InWindow(cfg: Config, start: int, polls: seq<Poll>): nat
    requires polls != []
  {
    |Since(After(cfg, start, polls).log, polls[|polls| - 1].now - Window(cfg))|
  }

  /** With at most 32 recommendations in the window it always does. */
  lemma WindowIsRespected(cfg: Config, start: int, polls: seq<Poll>)
    requires ForwardClock(polls) && polls != [] && InWindow(cfg, start, polls) <= MAX_HISTORY
    ensures Respected(cfg, start, polls)
  {
    hide Since, After, Recommend;
    var log, from := After(cfg, start, polls).log, polls[|polls| - 1].now - Window(cfg);
    NewestAreRespected(cfg, start, polls);
    HistoryIsRecentLog(cfg, start, polls);
    forall i | 0 <= i < |log| && log[i].time >= from
      ensures i >= |log| - MAX_HISTORY
    {
      LaterAreRecent(log, from, i);
    }
  }

  // ---- The cap binds -----------------------------------------------------

  /** There is a target to measure against, the bounds leave room, and some stabilization
      window is open. */
  predicate CanMove(cfg: Config)
  {
    cfg.target > 0.0 && (cfg.up > 0 || cfg.down > 0) && Bounded(cfg, 0) < Bounded(cfg, MAX_INT32)
  }

  /** The fleet's demand, in multiples of the target. */
  function Demand(cfg: Config, x: real): Reading { Fin(cfg.target * x) }

  /** More than any fleet can serve, and more than any tolerance lets pass. */
  function Plenty(cfg: Config): real { MAX_INT32 as real + 2.0 + if cfg.tolerance > 0.0 then cfg.tolerance else 0.0 }

  /** A demand for every replica there may be, and one for none. A tolerance of one or
      more takes even a demand of zero for close enough. */
  function Everything(cfg: Config): Reading { Demand(cfg, Plenty(cfg)) }

  function None(cfg: Config): Reading { if cfg.tolerance < 1.0 then Demand(cfg, 0.0) else NegInf }

  function PollOf(v: Reading): Poll { Poll(0, 1, true, v) }

  /** A poll that reads `v` recommends `r`. */
  predicate Asks(cfg: Config, v: Reading, r: int)
  {
    && Measured(cfg, PollOf(v)) && !InTolerance(cfg, Ratio(cfg, PollOf(v)))
    && Bounded(cfg, CeilToInt32(Scaled(PollOf(v), Ratio(cfg, PollOf(v))))) == r
  }

  lemma DemandIsMeasured(cfg: Config, x: real)
    requires cfg.target > 0.0
    ensures var poll := PollOf(Demand(cfg, x)); Ratio(cfg, poll) == Fin(x) && Scaled(poll, Fin(x)) == Fin(x)
  {
  }

  lemma ExtremesAsk(cfg: Config)
    requires cfg.target > 0.0
    ensures Asks(cfg, Everything(cfg), Bounded(cfg, MAX_INT32)) && Asks(cfg, None(cfg), Bounded(cfg, 0))
  {
    hide Bounded, Demand, Plenty;
    DemandIsMeasured(cfg, 0.0);
    DemandIsMeasured(cfg, Plenty(cfg));
    PlentyIsEnough(cfg);
  }

  lemma PlentyIsEnough(cfg: Config)
    ensures !InTolerance(cfg, Fin(Plenty(cfg))) && CeilToInt32(Fin(Plenty(cfg))) == MAX_INT32
  {
  }

  function Repeated(r: int, k: nat): seq<Recommendation> { seq(k, i => Recommendation(0, r)) }

  /** One poll that reads `first` and k that read `rest`, all within the same second. */
  function Burst(first: Reading, rest: Reading, k: nat): seq<Poll>
  {
    [PollOf(first)] + seq(k, i => PollOf(rest))
  }

  ghost predicate AllAtZero(h: seq<Recommendation>) { forall i :: 0 <= i < |h| ==> h[i].time == 0 }

  lemma BurstPoll(cfg: Config, current: int, h: seq<Recommendation>, v: Reading, r: int)
    requires Asks(cfg, v, r) && Bounded(cfg, current) == current && AllAtZero(h)
    requires cfg.up > 0 || cfg.down > 0
    ensures var out := Recommend(cfg, current, h, PollOf(v));
      var kept := Newest(h + [Recommendation(0, r)], MAX_HISTORY);
      && out.valid && out.raw == r && out.history == kept
      && out.replicas == Bounded(cfg, Stabilize(r, current, kept, 0, cfg))
  {
    hide Since, Within, Ratio, Scaled, CeilToInt32, InTolerance, Stabilize;
    var all := h + [Recommendation(0, r)];
    assert NotAfter(all, 0);
    WithinIsSince(all, -Window(cfg), 0);
    EverythingRecent(all, -Window(cfg));
  }

  /** What stabilizing over the entries of one second comes to. */
  lemma StabilizedBurst(cfg: Config, current: int, r: int, kept: seq<Recommendation>)
    requires AllAtZero(kept) && kept != []
    ensures r < current && cfg.down > 0 ==> Stabilize(r, current, kept, 0, cfg) == Min(Largest(kept), current)
    ensures r > current && cfg.up > 0 ==> Stabilize(r, current, kept, 0, cfg) == Max(Smallest(kept), current)
    ensures r == current ==> Stabilize(r, current, kept, 0, cfg) == current
  {
    hide Since;
    if cfg.down > 0 {
      EverythingRecent(kept, -cfg.down);
    }
    if cfg.up > 0 {
      EverythingRecent(kept, -cfg.up);
    }
  }

  /** The fleet stands at `s`, which was just recommended, and is asked to go to `r`. */
  predicate Pushed(cfg: Config, s: int, r: int, first: Reading, rest: Reading)
  {
    && Asks(cfg, first, s) && Asks(cfg, rest, r) && Int32Bounds(cfg)
    && ((r < s && cfg.down > 0) || (r > s && cfg.up > 0))
  }

  /** It holds for as long as the first recommendation is remembered. */
  lemma {:induction false} FirstHolds(cfg: Config, s: int, r: int, first: Reading, rest: Reading, k: nat)
    requires Pushed(cfg, s, r, first, rest) && k < MAX_HISTORY
    ensures var h := [Recommendation(0, s)] + Repeated(r, k);
      After(cfg, s, Burst(first, rest, k)) == Position(s, h, h)
  {
    hide Recommend, Largest, Smallest, Asks, Stabilize;
    var polls, own := Burst(first, rest, k), Recommendation(0, s);
    AskedIsBounded(cfg, first, s);
    if k == 0 {
      assert polls == [PollOf(first)] && polls[..0] == [];
      assert [] + [own] == [own] && [own] + Repeated(r, 0) == [own];
      BurstPoll(cfg, s, [], first, s);
      StabilizedBurst(cfg, s, s, [own]);
    } else {
      assert polls[..|polls| - 1] == Burst(first, rest, k - 1);
      FirstHolds(cfg, s, r, first, rest, k - 1);
      var h, all := [own] + Repeated(r, k - 1), [own] + Repeated(r, k);
      BurstPoll(cfg, s, h, rest, r);
      assert h + [Recommendation(0, r)] == all && all[0] == own;
      StabilizedBurst(cfg, s, r, all);
      LargestBounds(all);
      SmallestBounds(all);
    }
  }

  lemma AskedIsBounded(cfg: Config, v: Reading, r: int)
    requires Asks(cfg, v, r) && Int32Bounds(cfg)
    ensures Bounded(cfg, r) == r && 1 <= r <= MAX_INT32
  {
    hide CeilToInt32, Scaled, Ratio, InTolerance;
  }

  /** The 33rd recommendation of a window pushes the first one out of the kept history,
      and the fleet moves past it. */
  lemma FirstIsForgotten(cfg: Config, s: int, r: int, first: Reading, rest: Reading)
    requires Pushed(cfg, s, r, first, rest)
    ensures var polls := Burst(first, rest, MAX_HISTORY);
      ForwardClock(polls) && InWindow(cfg, s, polls) == MAX_HISTORY + 1 && !Respected(cfg, s, polls)
  {
    hide Since, Recommend, Largest, Smallest, Asks, Stabilize;
    var polls, own := Burst(first, rest, MAX_HISTORY), Recommendation(0, s);
    var h, quiet := [own] + Repeated(r, MAX_HISTORY - 1), Repeated(r, MAX_HISTORY);
    assert polls[..|polls| - 1] == Burst(first, rest, MAX_HISTORY - 1);
    FirstHolds(cfg, s, r, first, rest, MAX_HISTORY - 1);
    AskedIsBounded(cfg, first, s);
    AskedIsBounded(cfg, rest, r);
    BurstPoll(cfg, s, h, rest, r);
    var log := h + [Recommendation(0, r)];
    assert Newest(log, MAX_HISTORY) == quiet;
    AllEqual(quiet, r);
    StabilizedBurst(cfg, s, r, quiet);
    EverythingRecent(log, -Window(cfg));
    LastPoll(cfg, s, polls);
    assert After(cfg, s, polls).log == log && log[0] == own;
  }

  /** A poll that reads an ordinary demand. */
  predicate IsOrdinary(poll: Poll) { poll.valid && poll.value.Fin? && poll.value.r >= 0.0 }

  /** The cap can bind under every configuration that can move at all: 33 recommendations
      in one window make the last decision pass the first of them. */
  lemma CapCanForget(cfg: Config) returns (start: int, polls: seq<Poll>)
    requires Int32Bounds(cfg) && CanMove(cfg)
    ensures polls != [] && ForwardClock(polls) && InWindow(cfg, start, polls) == MAX_HISTORY + 1
    ensures !Respected(cfg, start, polls)
    ensures cfg.tolerance < 1.0 ==> forall i :: 0 <= i < |polls| ==> IsOrdinary(polls[i])
  {
    hide InWindow, Respected, Bounded, Asks;
    ExtremesAsk(cfg);
    assert cfg.tolerance < 1.0 ==> Everything(cfg).r >= 0.0 && None(cfg) == Fin(0.0);
    var lo, hi := Bounded(cfg, 0), Bounded(cfg, MAX_INT32);
    if cfg.down > 0 {
      FirstIsForgotten(cfg, hi, lo, Everything(cfg), None(cfg));
      start, polls := hi, Burst(Everything(cfg), None(cfg), MAX_HISTORY);
    } else {
      FirstIsForgotten(cfg, lo, hi, None(cfg), Everything(cfg));
      start, polls := lo, Burst(None(cfg), Everything(cfg), MAX_HISTORY);
    }
  }

  /** The window's promise is kept on every run that puts at most `n` recommendations into
      a window. */
  ghost predicate KeptUpTo(cfg: Config, n: int)
  {
    forall start: int, polls: seq<Poll> ::
      polls != [] && ForwardClock(polls) && InWindow(cfg, start, polls) <= n ==> Respected(cfg, start, polls)
  }

  /** That is so exactly up to the cap, unless the fleet cannot move. */
  lemma WindowIsRespectedIff(cfg: Config, n: int)
    requires Int32Bounds(cfg)
    ensures KeptUpTo(cfg, n) <==> n <= 32 || !CanMove(cfg)
  {
    hide InWindow, Respected, Bounded;
    if n <= MAX_HISTORY || !CanMove(cfg) {
      forall start: int, polls: seq<Poll> | polls != [] && ForwardClock(polls) && InWindow(cfg, start, polls) <= n
        ensures Respected(cfg, start, polls)
      {
        if n <= MAX_HISTORY {
          WindowIsRespected(cfg, start, polls);
        } else {
          StuckIsRespected(cfg, start, polls);
        }
      }
    } else {
      var start, polls := CapCanForget(cfg);
      assert InWindow(cfg, start, polls) <= n && !Respected(cfg, start, polls);
    }
  }

  lemma StuckIsRespected(cfg: Config, start: int, polls: seq<Poll>)
    requires polls != [] && Int32Bounds(cfg) && !CanMove(cfg)
    ensures Respected(cfg, start, polls)
  {
    hide After, Retained, Stabilize, Ratio, Scaled, CeilToInt32;
    var at := Before(cfg, start, polls);
    DecisionIsBetween(cfg, at.current, at.history, polls[|polls| - 1]);
  }

  lemma {:induction false} InSince(h: seq<Recommendation>, from: int)
    ensures forall i :: 0 <= i < |h| && h[i].time >= from ==> h[i] in Since(h, from)
  {
    if h != [] {
      InSince(h[..|h| - 1], from);
      assert forall i :: 0 <= i < |h| - 1 ==> h[i] == h[..|h| - 1][i];
    }
  }

  // ---- Constant demand ---------------------------------------------------

  /** The size a demand of `v` asks for. */
  function Goal(cfg: Config, v: real): int
    requires cfg.target > 0.0
  {
    Bounded(cfg, CeilToInt32(Fin(v / cfg.target)))
  }

  /** Every poll that measures anything measures the fleet-wide demand `v`. */
  ghost predicate Constant(polls: seq<Poll>, v: real)
  {
    forall i :: 0 <= i < |polls| ==> polls[i].valid ==> polls[i].value == Fin(v)
  }

  /** `b` lies between `a` and `goal`. */
  predicate Toward(a: int, b: int, goal: int) { Min(a, goal) <= b <= Max(a, goal) }

  lemma PollMovesToward(cfg: Config, at: Position, poll: Poll, v: real)
    requires cfg.target > 0.0 && (poll.valid ==> poll.value == Fin(v))
    ensures Toward(Bounded(cfg, at.current), Advance(cfg, at, poll).current, Goal(cfg, v))
    ensures Bounded(cfg, Advance(cfg, at, poll).current) == Advance(cfg, at, poll).current
  {
    DecisionIsBetween(cfg, at.current, at.history, poll);
    if Measured(cfg, poll) {
      ReadyCountCancels(cfg, poll);
    }
  }

  /** Under constant demand the fleet moves monotonically toward the size the demand
      asks for: whatever the ready counts and outages, it never overshoots, never
      turns back and stays within bounds. */
  lemma {:induction false} ConstantDemandConverges(cfg: Config, start: int, polls: seq<Poll>, v: real, i: int)
    requires cfg.target > 0.0 && Constant(polls, v) && 0 <= i <= |polls|
    ensures Toward(Bounded(cfg, After(cfg, start, polls[..i]).current), Bounded(cfg, After(cfg, start, polls).current),
                   Goal(cfg, v))
    ensures polls != [] ==> Bounded(cfg, After(cfg, start, polls).current) == After(cfg, start, polls).current
    decreases |polls|
  {
    hide Advance, Goal;
    if polls == [] || i == |polls| {
      assert polls[..i] == polls;
    }
    if polls != [] {
      var init, poll := polls[..|polls| - 1], polls[|polls| - 1];
      PollMovesToward(cfg, After(cfg, start, init), poll, v);
      if i < |polls| {
        ConstantDemandConverges(cfg, start, init, v, i);
        assert init[..i] == polls[..i];
      }
    }
  }

  /** And it arrives: once every poll measured within the stabilization window was
      outside the tolerance, the fleet has exactly that size. */
  lemma ConstantDemandArrives(cfg: Config, start: int, polls: seq<Poll>, v: real)
    requires cfg.target > 0.0 && Int32Bounds(cfg) && Constant(polls, v) && ForwardClock(polls) && polls != []
    requires Measured(cfg, polls[|polls| - 1]) && !InTolerance(cfg, Ratio(cfg, polls[|polls| - 1]))
    requires forall i :: 0 <= i < |polls| && Measured(cfg, polls[i]) ==>
               polls[i].now >= polls[|polls| - 1].now - Window(cfg) ==> !InTolerance(cfg, Ratio(cfg, polls[i]))
    ensures After(cfg, start, polls).current == Goal(cfg, v)
  {
    hide Since, CeilToInt32, Retained, Ratio, InTolerance, After;
    var at, poll := Before(cfg, start, polls), polls[|polls| - 1];
    var out, c := Last(cfg, start, polls), Bounded(cfg, at.current);
    AfterLast(cfg, start, polls);
    ReadyCountCancels(cfg, poll);
    assert out.raw == Goal(cfg, v);
    DecisionIsBetween(cfg, at.current, at.history, poll);
    HistoryIsRecentLog(cfg, start, polls);
    RecentLogIsGoal(cfg, start, polls, v, poll.now - Window(cfg));
    var own := Recommendation(poll.now, out.raw);
    if out.raw > c && cfg.up > 0 {
      OwnEntryIsKept(cfg, at.history, own, poll.now - cfg.up);
      LookbackIsGoal(cfg, start, polls, v, poll.now - cfg.up);
    } else if out.raw < c && cfg.down > 0 {
      OwnEntryIsKept(cfg, at.history, own, poll.now - cfg.down);
      LookbackIsGoal(cfg, start, polls, v, poll.now - cfg.down);
    }
  }

  lemma AfterLast(cfg: Config, start: int, polls: seq<Poll>)
    requires polls != []
    ensures After(cfg, start, polls).current == Last(cfg, start, polls).replicas
    ensures After(cfg, start, polls).history == Last(cfg, start, polls).history
  {
  }

  /** Every entry stamped since `from` asks for `goal`. */
  ghost predicate AsksFor(log: seq<Recommendation>, from: int, goal: int)
  {
    forall i :: 0 <= i < |log| && log[i].time >= from ==> log[i].replicas == goal
  }

  lemma {:induction false} RecentLogIsGoal(cfg: Config, start: int, polls: seq<Poll>, v: real, from: int)
    requires cfg.target > 0.0 && Constant(polls, v)
    requires forall i :: 0 <= i < |polls| && Measured(cfg, polls[i]) ==>
               polls[i].now >= from ==> !InTolerance(cfg, Ratio(cfg, polls[i]))
    ensures AsksFor(After(cfg, start, polls).log, from, Goal(cfg, v))
    decreases |polls|
  {
    hide Ratio, InTolerance, CeilToInt32, Retained, Stabilize;
    if polls != [] {
      var init, poll := polls[..|polls| - 1], polls[|polls| - 1];
      RecentLogIsGoal(cfg, start, init, v, from);
      var at := After(cfg, start, init);
      if Measured(cfg, poll) && poll.now >= from {
        ReadyCountCancels(cfg, poll);
        assert !InTolerance(cfg, Ratio(cfg, polls[|polls| - 1]));
        assert Recommend(cfg, at.current, at.history, poll).raw == Goal(cfg, v);
      }
      var out := Recommend(cfg, at.current, at.history, poll);
      var log := After(cfg, start, polls).log;
      assert log == if out.valid then at.log + [Recommendation(poll.now, out.raw)] else at.log;
    }
  }

  /** So every entry the stabilization looks at is the goal. */
  lemma LookbackIsGoal(cfg: Config, start: int, polls: seq<Poll>, v: real, from: int)
    requires cfg.target > 0.0 && Int32Bounds(cfg) && ForwardClock(polls) && polls != []
    requires polls[|polls| - 1].now - Window(cfg) <= from
    requires AsksFor(After(cfg, start, polls).log, polls[|polls| - 1].now - Window(cfg), Goal(cfg, v))
    ensures var w := Since(After(cfg, start, polls).history, from);
      w != [] ==> Smallest(w) == Goal(cfg, v) == Largest(w)
  {
    hide After, Goal, Since;
    var at, now := After(cfg, start, polls), polls[|polls| - 1].now;
    HistoryIsRecentLog(cfg, start, polls);
    SinceIsSuffix(at.log, now - Window(cfg));
    var h := at.history;
    forall i | 0 <= i < |h|
      ensures h[i].replicas == Goal(cfg, v)
    {
      SinceMembers(at.log, now - Window(cfg));
    }
    assert Ordered(h);
    SinceIsSuffix(h, from);
    GoalRange(cfg, v);
    AllEqual(Since(h, from), Goal(cfg, v));
  }

  /** The bounds are 32-bit integers. */
  predicate Int32Bounds(cfg: Config) { cfg.minReplicas <= 0x7fff_ffff && cfg.maxReplicas <= 0x7fff_ffff }

  lemma GoalRange(cfg: Config, v: real)
    requires cfg.target > 0.0 && Int32Bounds(cfg)
    ensures 1 <= Goal(cfg, v) <= MAX_INT32
  {
  }

  lemma {:induction false} SinceMembers(h: seq<Recommendation>, from: int)
    ensures forall e :: e in Since(h, from) ==> e.time >= from && e in h
  {
    if h != [] {
      SinceMembers(h[..|h| - 1], from);
    }
  }

  lemma {:induction false} AllEqual(h: seq<Recommendation>, n: int)
    requires h != [] ==> 0 <= n <= MAX_INT32
    requires forall i :: 0 <= i < |h| ==> h[i].replicas == n
    ensures h != [] ==> Smallest(h) == n == Largest(h)
  {
    if |h| > 1 {
      AllEqual(h[..|h| - 1], n);
    } else if h != [] {
      assert h[..0] == [];
    }
  }
}
