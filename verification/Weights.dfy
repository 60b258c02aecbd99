/** Replica splitting and the weight ladder (internal/canary/weights.go and
    CanarySpec.StepLadder in api/v1alpha1/rollout_types.go). */
module Weights {

  datatype Counts = Counts(primary: int, canary: int)

  function Min(a: int, b: int): int { if a < b then a else b }

  function Max(a: int, b: int): int { if a < b then b else a }

  function Abs(a: int): int { if a < 0 then -a else a }

  /** Divides `total` replicas so that the canary gets about `weight` percent,
      rounded up, and the primary keeps a pod unless the weight is 100. */
  function Split(total: int, weight: int): (c: Counts)
    ensures total >= 0 ==> c.primary >= 0 && c.canary >= 0 && c.primary + c.canary == total
    ensures total > 1 && weight > 0 ==> c.canary >= 1
    ensures total >= 1 && weight < 100 ==> c.primary >= 1
  {
    if total <= 0 then Counts(0, 0)
    else if weight <= 0 then Counts(total, 0)
    else if weight >= 100 then Counts(0, total)
    else
      var rounded := Max((total * weight + 99) / 100, 1);
      var capped := if rounded >= total then total - 1 else rounded;
      var canary := Max(capped, 0);
      Counts(total - canary, canary)
  }

  /** The configured replica share in whole percent, rounded to nearest. */
  function RealizedWeight(primary: int, canary: int): int
  {
    var total := primary + canary;
    if total <= 0 then 0 else (canary * 100 + total / 2) / total
  }

  /** Rounding is to the nearest percent, halves up; no replicas have no share. */
  lemma RealizedIsNearest(primary: int, canary: int)
    requires primary >= 0 && canary >= 0
    ensures var total, realized := primary + canary, RealizedWeight(primary, canary);
      if total == 0 then realized == 0
      else 2 * realized * total - total <= 200 * canary <= 2 * realized * total + total
  {
    var total, n := primary + canary, canary * 100 + (primary + canary) / 2;
    if total > 0 {
      QuotientAtLeast(n, total, n / total);
      QuotientAtLeast(n, total, n / total + 1);
    }
  }

  predicate IsQuantized(desired: int, realized: int) { Abs(desired - realized) > 1 }

  /** The split of this weight is reported as quantized. */
  predicate QuantizedAt(total: int, weight: int)
  {
    var c := Split(total, weight);
    IsQuantized(weight, RealizedWeight(c.primary, c.canary))
  }

  /** The canary's share is off by less than one pod, in hundredths of a pod. */
  lemma SplitQuantization(total: int, weight: int)
    requires total >= 1 && 0 <= weight <= 100
    ensures Abs(100 * Split(total, weight).canary - weight * total) <= 99
  {
  }

  lemma SplitMonotone(total: int, weight: int, total': int, weight': int)
    requires 0 <= total <= total' && weight <= weight'
    ensures Split(total, weight).canary <= Split(total', weight').canary
  {
    if 0 < total && 0 < weight && weight' < 100 {
      ProductMonotone(total, weight, total', weight');
      RoundingMonotone(total * weight, total' * weight');
    }
  }

  lemma ProductMonotone(a: int, b: int, a': int, b': int)
    requires 0 <= a <= a' && 0 <= b <= b'
    ensures a * b <= a' * b'
  {
  }

  lemma RoundingMonotone(a: int, b: int)
    requires a <= b
    ensures (a + 99) / 100 <= (b + 99) / 100
  {
  }

  /** A fleet for which the canary's share is off by at most `slack` hundredths of a pod
      realizes the weight to the point. */
  lemma CloseEnough(total: int, weight: int, slack: int)
    requires total >= 1 && slack < 2 * total - total / 2 && slack <= total + total / 2
    requires Abs(100 * Split(total, weight).canary - weight * total) <= slack
    ensures !QuantizedAt(total, weight)
  {
    hide Split;
    NearQuotient(Split(total, weight).canary * 100 + total / 2, total, weight);
  }

  lemma NearQuotient(n: int, t: int, w: int)
    requires t > 0 && w * t - t <= n < w * t + 2 * t
    ensures w - 1 <= n / t <= w + 1
  {
    QuotientAtLeast(n, t, w - 1);
    QuotientAtLeast(n, t, w + 2);
  }

  lemma QuotientAtLeast(n: int, t: int, k: int)
    requires t > 0
    ensures k <= n / t <==> k * t <= n
  {
    if k <= n / t {
      ScaleMonotone(k, n / t, t);
    } else {
      ScaleMonotone(n / t + 1, k, t);
    }
  }

  // Where the total and 100 have a factor in common, the error is a multiple of it.

  lemma FleetOf50(weight: int)
    requires 0 <= weight <= 100
    ensures !QuantizedAt(50, weight)
  {
    hide Split, QuantizedAt;
    SplitQuantization(50, weight);
    var x := 2 * Split(50, weight).canary - 1 * weight;
    assert 100 * Split(50, weight).canary - weight * 50 == 50 * x;
    assert -1 <= x <= 1;
    CloseEnough(50, weight, 50);
  }

  lemma FleetOf60(weight: int)
    requires 0 <= weight <= 100
    ensures !QuantizedAt(60, weight)
  {
    hide Split, QuantizedAt;
    SplitQuantization(60, weight);
    var x := 5 * Split(60, weight).canary - 3 * weight;
    assert 100 * Split(60, weight).canary - weight * 60 == 20 * x;
    assert -4 <= x <= 4;
    CloseEnough(60, weight, 80);
  }

  lemma FleetOf65(weight: int)
    requires 0 <= weight <= 100
    ensures !QuantizedAt(65, weight)
  {
    hide Split, QuantizedAt;
    SplitQuantization(65, weight);
    var x := 20 * Split(65, weight).canary - 13 * weight;
    assert 100 * Split(65, weight).canary - weight * 65 == 5 * x;
    assert -19 <= x <= 19;
    CloseEnough(65, weight, 95);
  }

  lemma FleetOf66(weight: int)
    requires 0 <= weight <= 100
    ensures !QuantizedAt(66, weight)
  {
    hide Split, QuantizedAt;
    SplitQuantization(66, weight);
    var x := 50 * Split(66, weight).canary - 33 * weight;
    assert 100 * Split(66, weight).canary - weight * 66 == 2 * x;
    assert -49 <= x <= 49;
    CloseEnough(66, weight, 98);
  }

  /** From 65 replicas on, the realized share is within one point of the
      request, so no split is ever reported as quantized. */
  lemma LargeFleetIsNotQuantized(total: int, weight: int)
    requires total >= 65 && 0 <= weight <= 100
    ensures !QuantizedAt(total, weight)
  {
    hide Split, QuantizedAt;
    if total == 65 {
      FleetOf65(weight);
    } else if total == 66 {
      FleetOf66(weight);
    } else {
      SplitQuantization(total, weight);
      CloseEnough(total, weight, 99);
    }
  }

  lemma ScaleMonotone(a: int, b: int, t: int)
    requires a <= b && t >= 0
    ensures a * t <= b * t
  {
  }

  /** A weight that a small fleet cannot realize to the point. */
  function Awkward(total: int): int
  {
    if total == 1 then 96
    else if total <= 40 then 1
    else if total <= 49 then 96
    else if total <= 57 then 2
    else if total == 59 then 12
    else if total <= 61 then 64
    else if total == 62 then 13
    else if total == 63 then 8
    else 11
  }

  lemma SmallFleetIsQuantized(total: int)
    requires 1 <= total < 65 && total != 50 && total != 60
    ensures QuantizedAt(total, Awkward(total))
  {
    var c := Split(total, Awkward(total));
    var numerator := c.canary * 100 + total / 2;
    if 2 <= total <= 40 {
      assert c.canary == 1;
      QuotientAtLeast(numerator, total, 3);
    } else if 41 <= total <= 49 {
      assert c.canary == total - 1;
      QuotientAtLeast(numerator, total, 98);
    } else if 51 <= total <= 57 {
      assert c.canary == 2;
      QuotientAtLeast(numerator, total, 4);
    }
  }

  /** Which fleets realize every weight to the point: 50, 60, and from 65 replicas on. */
  lemma NeverQuantizedIff(total: int)
    requires total >= 1
    ensures (forall w :: 0 <= w <= 100 ==> !QuantizedAt(total, w)) <==> total >= 65 || total == 50 || total == 60
  {
    hide QuantizedAt;
    if total >= 65 {
      forall w | 0 <= w <= 100
        ensures !QuantizedAt(total, w)
      {
        LargeFleetIsNotQuantized(total, w);
      }
    } else if total == 50 || total == 60 {
      forall w | 0 <= w <= 100
        ensures !QuantizedAt(total, w)
      {
        FleetOf50(w);
        FleetOf60(w);
      }
    } else {
      SmallFleetIsQuantized(total);
    }
  }

  // ---- The ladder -------------------------------------------------------

  ghost predicate StrictlyIncreasing(s: seq<int>)
  {
    forall i, j :: 0 <= i < j < |s| ==> s[i] < s[j]
  }

  /** Optional int32 fields of the spec. */
  datatype OptInt = Absent | Given(n: int)

  function PositiveOr(v: OptInt, fallback: int): int
  {
    if v.Given? && v.n > 0 then v.n else fallback
  }

  /** The entries of an explicit ladder that survive: those above `prev` and
      above every earlier survivor, and at most 100. */
  function Climbing(ws: seq<int>, prev: int): seq<int>
  {
    if ws == [] then []
    else if prev < ws[0] <= 100 then [ws[0]] + Climbing(ws[1..], ws[0])
    else Climbing(ws[1..], prev)
  }

  lemma {:induction false} ClimbingSnoc(ws: seq<int>, prev: int, w: int)
    ensures var out := Climbing(ws, prev);
            var top := if out == [] then prev else out[|out| - 1];
            Climbing(ws + [w], prev) == if top < w <= 100 then out + [w] else out
  {
    if ws == [] {
      assert [w][1..] == [];
      assert ws + [w] == [w];
    } else {
      assert (ws + [w])[1..] == ws[1..] + [w];
      if prev < ws[0] <= 100 {
        ClimbingSnoc(ws[1..], ws[0], w);
      } else {
        ClimbingSnoc(ws[1..], prev, w);
      }
    }
  }

  /** Every survivor is a valid entry above `prev`, and survivors climb. */
  lemma {:induction false} ClimbingClimbs(ws: seq<int>, prev: int)
    ensures StrictlyIncreasing(Climbing(ws, prev))
    ensures forall i :: 0 <= i < |Climbing(ws, prev)| ==>
              prev < Climbing(ws, prev)[i] <= 100 && Climbing(ws, prev)[i] in ws
  {
    if ws != [] {
      ClimbingClimbs(ws[1..], if prev < ws[0] <= 100 then ws[0] else prev);
    }
  }

  /** Every strict running maximum of the valid entries survives. */
  lemma {:induction false} RunningMaximumSurvives(ws: seq<int>, prev: int, i: int)
    requires 0 <= i < |ws| && prev < ws[i] <= 100
    requires forall j :: 0 <= j < i && ws[j] <= 100 ==> ws[j] < ws[i]
    ensures ws[i] in Climbing(ws, prev)
  {
    if i > 0 {
      RunningMaximumSurvives(ws[1..], if prev < ws[0] <= 100 then ws[0] else prev, i - 1);
    }
  }

  /** StepLadder. The requires are the admission bounds on stepWeight and
      maxWeight (rollout_types.go:121-122, 147-148). */
  method StepLadder(stepWeights: seq<int>, stepWeight: OptInt, maxWeight: OptInt) returns (ladder: seq<int>)
    requires stepWeight.Given? ==> stepWeight.n <= 100
    requires maxWeight.Given? ==> maxWeight.n <= 100
    ensures |ladder| >= 1 && StrictlyIncreasing(ladder)
    ensures forall i :: 0 <= i < |ladder| ==> 1 <= ladder[i] <= 100
    ensures Climbing(stepWeights, 0) != [] ==> ladder == Climbing(stepWeights, 0)
    ensures Climbing(stepWeights, 0) == [] ==>
              var step := if stepWeight.Given? && stepWeight.n >= 1 then stepWeight.n else 20;
              var top := if maxWeight.Given? && maxWeight.n >= 1 then maxWeight.n else 50;
              ladder == Uniform(step, step, top)
  {
    if |stepWeights| > 0 {
      var out, prev := [], 0;
      for i := 0 to |stepWeights|
        invariant out == Climbing(stepWeights[..i], 0)
        invariant prev == if out == [] then 0 else out[|out| - 1]
      {
        var w := stepWeights[i];
        ClimbingSnoc(stepWeights[..i], 0, w);
        assert stepWeights[..i + 1] == stepWeights[..i] + [w];
        if w > prev && w <= 100 {
          out, prev := out + [w], w;
        }
      }
      assert stepWeights[..|stepWeights|] == stepWeights;
      if |out| > 0 {
        ClimbingClimbs(stepWeights, 0);
        return out;
      }
    }
    ladder := UniformLadder(PositiveOr(stepWeight, 20), PositiveOr(maxWeight, 50));
  }

  /** Equal steps below `top`, then `top` itself however the step divides it. */
  function Uniform(from: int, step: int, top: int): (u: seq<int>)
    requires step >= 1
    ensures |u| >= 1
    decreases top - from
  {
    if from >= top then [top] else [from] + Uniform(from + step, step, top)
  }

  lemma {:induction false} UniformClimbs(from: int, step: int, top: int)
    requires step >= 1
    ensures var u := Uniform(from, step, top);
            && StrictlyIncreasing(u)
            && u[|u| - 1] == top
            && (forall i :: 0 <= i < |u| ==> Min(from, top) <= u[i] <= top)
    decreases top - from
  {
    if from < top {
      UniformClimbs(from + step, step, top);
    }
  }

  /** Rung i is the i-th multiple, except the last, which is `top`. */
  lemma {:induction false} UniformAt(from: int, step: int, top: int, i: nat)
    requires step >= 1 && i < |Uniform(from, step, top)|
    ensures var u := Uniform(from, step, top);
            if i < |u| - 1 then u[i] == from + i * step < top else u[i] == top && (from + i * step >= top)
    decreases top - from
  {
    UniformClimbs(from, step, top);
    if from < top && i > 0 {
      UniformAt(from + step, step, top, i - 1);
      assert (i - 1) * step + step == i * step;
    }
  }

  method UniformLadder(step: int, top: int) returns (ladder: seq<int>)
    requires 1 <= step && 1 <= top <= 100
    ensures ladder == Uniform(step, step, top)
    ensures StrictlyIncreasing(ladder)
    ensures forall i :: 0 <= i < |ladder| ==> 1 <= ladder[i] <= top
  {
    var out, w := [], step;
    while w < top
      invariant out + Uniform(w, step, top) == Uniform(step, step, top)
    {
      assert out + [w] + Uniform(w + step, step, top) == out + Uniform(w, step, top);
      out := out + [w];
      w := w + step;
    }
    ladder := out + [top];
    UniformClimbs(step, step, top);
  }
}
