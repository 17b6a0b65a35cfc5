/**
 Linear zero-rate curves: the pillar search, and what bumping one pillar or all of them does to the
 interpolated rate.
 */
module Curves {
  import opened Numbers
  import opened Options

  datatype Pillar = Pillar(tenor: real, rate: real)

  predicate Holds(p: seq<Pillar>, i: nat, t: real)
    requires i + 1 < |p|
  {
    p[i].tenor <= t <= p[i + 1].tenor
  }

  /** The first segment from `i` on whose tenors enclose `t`, or |p| - 1 if there is none. */
  function Segment(p: seq<Pillar>, i: nat, t: real): (s: nat)
    requires i < |p|
    ensures i <= s < |p|
    ensures s + 1 < |p| ==> Holds(p, s, t)
    ensures forall j :: i <= j < s ==> !Holds(p, j, t)
    decreases |p| - i
  {
    if i + 1 == |p| || Holds(p, i, t) then i else Segment(p, i + 1, t)
  }

  predicate Inside(p: seq<Pillar>, t: real)
    requires p != []
  {
    p[0].tenor < t < p[|p| - 1].tenor
  }

  /** The lookup is a number: the segment it divides by has a length. */
  predicate Defined(p: seq<Pillar>, t: real) {
    p != [] && Inside(p, t) ==>
      var s := Segment(p, 0, t);
      s + 1 < |p| ==> p[s].tenor < p[s + 1].tenor
  }

  /** The weight of pillar `k` in the rate at `t`; it looks at tenors only. */
  function Weight(p: seq<Pillar>, k: int, t: real): real
    requires p != [] && Defined(p, t)
  {
    var last := |p| - 1;
    if t <= p[0].tenor then (if k == 0 then 1.0 else 0.0)
    else if t >= p[last].tenor then (if k == last then 1.0 else 0.0)
    else
      var s := Segment(p, 0, t);
      if s == last then (if k == last then 1.0 else 0.0)
      else
        var frac := (t - p[s].tenor) / (p[s + 1].tenor - p[s].tenor);
        if k == s then 1.0 - frac else if k == s + 1 then frac else 0.0
  }

  /** The weighted sum of the first `n` pillar rates. */
  function Weighted(p: seq<Pillar>, n: nat, t: real): real
    requires p != [] && Defined(p, t) && n <= |p|
  {
    if n == 0 then 0.0 else Weighted(p, n - 1, t) + Weight(p, n - 1, t) * p[n - 1].rate
  }

  /** The zero rate at `t`: the weighted sum of all pillar rates, 0 on the empty curve. */
  function Zero(p: seq<Pillar>, t: real): real
    requires Defined(p, t)
  {
    if p == [] then 0.0 else Weighted(p, |p|, t)
  }

  // ----- The search -----

  lemma ZeroProduct(w: real, x: real)
    requires w == 0.0
    ensures w * x == 0.0
  {
  }

  lemma {:induction false} WeightedSupport(p: seq<Pillar>, n: nat, t: real, a: nat, b: nat)
    requires p != [] && Defined(p, t) && n <= |p| && a <= b < |p|
    requires forall k :: 0 <= k < |p| && k != a && k != b ==> Weight(p, k, t) == 0.0
    ensures Weighted(p, n, t) == (if a < n then Weight(p, a, t) * p[a].rate else 0.0)
                                 + (if a != b && b < n then Weight(p, b, t) * p[b].rate else 0.0)
  {
    hide Weight, Defined;
    if n > 0 {
      WeightedSupport(p, n - 1, t, a, b);
      if n - 1 != a && n - 1 != b {
        ZeroProduct(Weight(p, n - 1, t), p[n - 1].rate);
      }
    }
  }

  /** The source's loop; None stands for the NaN of a division by zero. */
  method LinearZero(pillars: seq<Pillar>, tenorDays: real) returns (r: Option<real>)
    ensures r == if Defined(pillars, tenorDays) then Some(Zero(pillars, tenorDays)) else None
  {
    var p, t := pillars, tenorDays;
    if |p| == 0 { return Some(0.0); }
    var last := |p| - 1;
    if t <= p[0].tenor {
      RateAtPillar(p, t, 0);
      return Some(p[0].rate);
    }
    if t >= p[last].tenor {
      RateAtPillar(p, t, last);
      return Some(p[last].rate);
    }
    for i := 0 to last
      invariant Segment(p, 0, t) >= i
    {
      if t >= p[i].tenor && t <= p[i + 1].tenor {
        assert Holds(p, i, t);
        assert Segment(p, 0, t) == i;
        if p[i + 1].tenor == p[i].tenor { return None; }
        var frac := (t - p[i].tenor) / (p[i + 1].tenor - p[i].tenor);
        RateOnSegment(p, t, i, frac);
        return Some(p[i].rate + frac * (p[i + 1].rate - p[i].rate));
      }
    }
    RateAtPillar(p, t, last);
    r := Some(p[last].rate);
  }

  /** Where one pillar carries all the weight, the rate is that pillar's. */
  lemma RateAtPillar(p: seq<Pillar>, t: real, k: nat)
    requires k < |p| && Defined(p, t) && forall j :: Weight(p, j, t) == if j == k then 1.0 else 0.0
    ensures Zero(p, t) == p[k].rate
  {
    hide Weight, Defined;
    WeightedSupport(p, |p|, t, k, k);
    UnitProduct(Weight(p, k, t), p[k].rate);
  }

  lemma UnitProduct(w: real, x: real)
    requires w == 1.0
    ensures w * x == x
  {
  }

  lemma RateOnSegment(p: seq<Pillar>, t: real, i: nat, frac: real)
    requires i + 1 < |p| && Inside(p, t) && Segment(p, 0, t) == i && p[i].tenor < p[i + 1].tenor
    requires frac == (t - p[i].tenor) / (p[i + 1].tenor - p[i].tenor)
    ensures Zero(p, t) == p[i].rate + frac * (p[i + 1].rate - p[i].rate)
  {
    WeightedSupport(p, |p|, t, i, i + 1);
    assert Weight(p, i, t) == 1.0 - frac && Weight(p, i + 1, t) == frac;
    Blend(Weight(p, i, t), frac, p[i].rate, p[i + 1].rate);
  }

  lemma Blend(u: real, v: real, a: real, b: real)
    requires u == 1.0 - v
    ensures u * a + v * b == a + v * (b - a)
  {
  }

  // ----- Ordered curves -----

  ghost predicate Ascending(p: seq<Pillar>) {
    forall i, j :: 0 <= i < j < |p| ==> p[i].tenor < p[j].tenor
  }

  ghost predicate Sorted(p: seq<Pillar>) {
    forall i, j :: 0 <= i < j < |p| ==> p[i].tenor <= p[j].tenor
  }

  /** On sorted tenors, repeats allowed, the lookup never divides by zero. */
  lemma SortedIsDefined(p: seq<Pillar>, t: real)
    requires Sorted(p)
    ensures Defined(p, t)
  {
    if p != [] && Inside(p, t) {
      var s := Segment(p, 0, t);
      assert 0 < s ==> !Holds(p, s - 1, t);
    }
  }

  /** The search finds a segment on every sorted curve, so the final fallback is never reached. */
  lemma SortedFindsSegment(p: seq<Pillar>, t: real)
    requires Sorted(p) && p != [] && Inside(p, t)
    ensures Segment(p, 0, t) + 1 < |p|
  {
    var s := Segment(p, 0, t);
    if s + 1 == |p| {
      NoneHoldsAbove(p, t, s);
    }
  }

  lemma {:induction false} NoneHoldsAbove(p: seq<Pillar>, t: real, n: nat)
    requires n < |p| && p[0].tenor < t && forall j :: 0 <= j < n ==> !Holds(p, j, t)
    ensures p[n].tenor < t
  {
    if n > 0 {
      NoneHoldsAbove(p, t, n - 1);
      assert !Holds(p, n - 1, t);
    }
  }

  function WeightSum(p: seq<Pillar>, n: nat, t: real): real
    requires p != [] && Defined(p, t) && n <= |p|
  {
    if n == 0 then 0.0 else WeightSum(p, n - 1, t) + Weight(p, n - 1, t)
  }

  lemma {:induction false} WeightSumSupport(p: seq<Pillar>, n: nat, t: real, a: nat, b: nat)
    requires p != [] && Defined(p, t) && n <= |p| && a <= b < |p|
    requires forall k :: 0 <= k < |p| && k != a && k != b ==> Weight(p, k, t) == 0.0
    ensures WeightSum(p, n, t) == (if a < n then Weight(p, a, t) else 0.0)
                                  + (if a != b && b < n then Weight(p, b, t) else 0.0)
  {
    hide Weight, Defined;
    if n > 0 {
      WeightSumSupport(p, n - 1, t, a, b);
    }
  }

  /** The weights are non-negative and add up to 1. */
  lemma WeightsPartition(p: seq<Pillar>, t: real)
    requires p != [] && Defined(p, t)
    ensures WeightSum(p, |p|, t) == 1.0
    ensures forall k :: Weight(p, k, t) >= 0.0
  {
    var last := |p| - 1;
    if t <= p[0].tenor {
      WeightSumSupport(p, |p|, t, 0, 0);
    } else if t >= p[last].tenor || Segment(p, 0, t) == last {
      WeightSumSupport(p, |p|, t, last, last);
    } else {
      var s := Segment(p, 0, t);
      Fraction(t - p[s].tenor, p[s + 1].tenor - p[s].tenor);
      WeightSumSupport(p, |p|, t, s, s + 1);
    }
  }

  lemma Fraction(a: real, b: real)
    requires 0.0 <= a <= b && 0.0 < b
    ensures 0.0 <= a / b <= 1.0
  {
  }

  /** So the rate at any tenor lies between any bounds on the pillar rates. */
  lemma RateWithinPillars(p: seq<Pillar>, t: real, lo: real, hi: real)
    requires p != [] && Defined(p, t)
    requires forall k :: 0 <= k < |p| ==> lo <= p[k].rate <= hi
    ensures lo <= Zero(p, t) <= hi
  {
    WeightsPartition(p, t);
    WeightedBounds(p, |p|, t, lo, hi);
  }

  lemma {:induction false} WeightedBounds(p: seq<Pillar>, n: nat, t: real, lo: real, hi: real)
    requires p != [] && Defined(p, t) && n <= |p|
    requires forall k :: 0 <= k < |p| ==> lo <= p[k].rate <= hi
    requires forall k :: Weight(p, k, t) >= 0.0
    ensures lo * WeightSum(p, n, t) <= Weighted(p, n, t) <= hi * WeightSum(p, n, t)
  {
    hide Weight, Defined;
    if n > 0 {
      WeightedBounds(p, n - 1, t, lo, hi);
      ScaleBounds(Weight(p, n - 1, t), lo, p[n - 1].rate, hi);
      Split(lo, WeightSum(p, n - 1, t), Weight(p, n - 1, t));
      Split(hi, WeightSum(p, n - 1, t), Weight(p, n - 1, t));
    }
  }

  lemma ScaleBounds(w: real, lo: real, x: real, hi: real)
    requires w >= 0.0 && lo <= x <= hi
    ensures lo * w <= w * x <= hi * w
  {
  }

  lemma Split(q: real, a: real, b: real)
    ensures q * (a + b) == q * a + q * b
  {
  }

  // ----- Bumps -----

  function FindIndex(p: seq<Pillar>, tenor: real, i: nat): (r: Option<nat>)
    requires i <= |p|
    ensures r.Some? ==> i <= r.value < |p| && p[r.value].tenor == tenor
    ensures r.None? ==> forall j :: i <= j < |p| ==> p[j].tenor != tenor
    decreases |p| - i
  {
    if i == |p| then None else if p[i].tenor == tenor then Some(i) else FindIndex(p, tenor, i + 1)
  }

  /** The pillar at this tenor moved by `bp`; None where the source throws for an unknown tenor. */
  function ShiftOnePillar(p: seq<Pillar>, tenor: real, bp: real): Option<seq<Pillar>> {
    match FindIndex(p, tenor, 0)
    case None => None
    case Some(i) => Some(p[i := p[i].(rate := p[i].rate + bp)])
  }

  function ShiftAllPillars(p: seq<Pillar>, bp: real): seq<Pillar> {
    seq(|p|, i requires 0 <= i < |p| => p[i].(rate := p[i].rate + bp))
  }

  ghost predicate SameTenors(p: seq<Pillar>, q: seq<Pillar>) {
    |p| == |q| && forall i :: 0 <= i < |p| ==> p[i].tenor == q[i].tenor
  }

  lemma {:induction false} SameSegment(p: seq<Pillar>, q: seq<Pillar>, i: nat, t: real)
    requires SameTenors(p, q) && i < |p|
    ensures Segment(p, i, t) == Segment(q, i, t)
    decreases |p| - i
  {
    if i + 1 < |p| {
      SameSegment(p, q, i + 1, t);
    }
  }

  lemma SameWeights(p: seq<Pillar>, q: seq<Pillar>, t: real)
    requires SameTenors(p, q) && p != [] && Defined(p, t)
    ensures Defined(q, t) && forall k :: Weight(q, k, t) == Weight(p, k, t)
  {
    SameSegment(p, q, 0, t);
  }

  lemma MovedProduct(w: real, v: real, x: real, y: real, d: real)
    requires v == w && y == x + d
    ensures v * y - w * x == w * d && w * d == d * w && (d == 0.0 ==> w * d == 0.0)
  {
  }

  /** Curves on the same tenors whose rates differ by `d(k)` differ at `t` by the weighted sum of the d(k). */
  lemma {:induction false} WeightedDifference(p: seq<Pillar>, q: seq<Pillar>, n: nat, t: real, k: nat, bp: real)
    requires SameTenors(p, q) && p != [] && Defined(p, t) && Defined(q, t) && n <= |p| && k < |p|
    requires forall j :: Weight(q, j, t) == Weight(p, j, t)
    requires forall j :: 0 <= j < |p| ==> q[j].rate == p[j].rate + (if j == k then bp else 0.0)
    ensures Weighted(q, n, t) - Weighted(p, n, t) == if k < n then Weight(p, k, t) * bp else 0.0
  {
    hide Weight, Defined;
    if n > 0 {
      WeightedDifference(p, q, n - 1, t, k, bp);
      MovedProduct(Weight(p, n - 1, t), Weight(q, n - 1, t), p[n - 1].rate, q[n - 1].rate,
                   if n - 1 == k then bp else 0.0);
    }
  }

  lemma {:induction false} WeightedParallel(p: seq<Pillar>, q: seq<Pillar>, n: nat, t: real, bp: real)
    requires SameTenors(p, q) && p != [] && Defined(p, t) && Defined(q, t) && n <= |p|
    requires forall j :: Weight(q, j, t) == Weight(p, j, t)
    requires forall j :: 0 <= j < |p| ==> q[j].rate == p[j].rate + bp
    ensures Weighted(q, n, t) - Weighted(p, n, t) == bp * WeightSum(p, n, t)
  {
    hide Weight, Defined;
    if n > 0 {
      WeightedParallel(p, q, n - 1, t, bp);
      MovedProduct(Weight(p, n - 1, t), Weight(q, n - 1, t), p[n - 1].rate, q[n - 1].rate, bp);
      Split(bp, WeightSum(p, n - 1, t), Weight(p, n - 1, t));
    }
  }

  /** A parallel bump moves the rate at every tenor by exactly `bp`. */
  lemma ParallelBumpIsExact(p: seq<Pillar>, t: real, bp: real)
    requires p != [] && Defined(p, t)
    ensures Defined(ShiftAllPillars(p, bp), t)
    ensures Zero(ShiftAllPillars(p, bp), t) == Zero(p, t) + bp
  {
    var q := ShiftAllPillars(p, bp);
    SameWeights(p, q, t);
    WeightedParallel(p, q, |p|, t, bp);
    WeightsPartition(p, t);
  }

  lemma FindsItself(p: seq<Pillar>, k: nat)
    requires Ascending(p) && k < |p|
    ensures FindIndex(p, p[k].tenor, 0) == Some(k)
  {
    var r := FindIndex(p, p[k].tenor, 0);
    assert r.Some?;
  }

  /** A one-pillar bump moves the rate at `t` by the pillar's weight there. */
  lemma PillarBumpIsWeighted(p: seq<Pillar>, t: real, k: nat, bp: real)
    requires Ascending(p) && k < |p| && Defined(p, t)
    ensures var q := ShiftOnePillar(p, p[k].tenor, bp);
            q.Some? && Defined(q.value, t) && Zero(q.value, t) == Zero(p, t) + Weight(p, k, t) * bp
  {
    FindsItself(p, k);
    var q := p[k := p[k].(rate := p[k].rate + bp)];
    SameWeights(p, q, t);
    WeightedDifference(p, q, |p|, t, k, bp);
  }

  /** The summed effects at `t` of bumping each of the first `n` pillars alone. */
  function BumpEffects(p: seq<Pillar>, n: nat, t: real, bp: real): real
    requires Defined(p, t) && n <= |p|
    requires forall k :: 0 <= k < |p| ==>
      ShiftOnePillar(p, p[k].tenor, bp).Some? && Defined(ShiftOnePillar(p, p[k].tenor, bp).value, t)
  {
    if n == 0 then 0.0
    else BumpEffects(p, n - 1, t, bp) + (Zero(ShiftOnePillar(p, p[n - 1].tenor, bp).value, t) - Zero(p, t))
  }

  lemma {:induction false} EffectsSum(p: seq<Pillar>, n: nat, t: real, bp: real)
    requires p != [] && Ascending(p) && Defined(p, t) && n <= |p|
    requires forall k :: 0 <= k < |p| ==>
      ShiftOnePillar(p, p[k].tenor, bp).Some? && Defined(ShiftOnePillar(p, p[k].tenor, bp).value, t)
    ensures BumpEffects(p, n, t, bp) == bp * WeightSum(p, n, t)
  {
    hide Weight, Defined, ShiftOnePillar, Zero, Ascending;
    if n > 0 {
      EffectsSum(p, n - 1, t, bp);
      PillarBumpIsWeighted(p, t, n - 1, bp);
      Split(bp, WeightSum(p, n - 1, t), Weight(p, n - 1, t));
    }
  }

  /** Partition of unity: the key-rate bumps add up, at every tenor, to the parallel bump. */
  lemma KeyRateBumpsAddUp(p: seq<Pillar>, t: real, bp: real)
    requires p != [] && Ascending(p)
    ensures Defined(p, t) && Defined(ShiftAllPillars(p, bp), t)
    ensures forall k :: 0 <= k < |p| ==>
      ShiftOnePillar(p, p[k].tenor, bp).Some? && Defined(ShiftOnePillar(p, p[k].tenor, bp).value, t)
    ensures BumpEffects(p, |p|, t, bp) == Zero(ShiftAllPillars(p, bp), t) - Zero(p, t) == bp
  {
    SortedIsDefined(p, t);
    forall k | 0 <= k < |p|
      ensures ShiftOnePillar(p, p[k].tenor, bp).Some? && Defined(ShiftOnePillar(p, p[k].tenor, bp).value, t)
    {
      PillarBumpIsWeighted(p, t, k, bp);
    }
    EffectsSum(p, |p|, t, bp);
    WeightsPartition(p, t);
    ParallelBumpIsExact(p, t, bp);
  }

  // ----- Freezing a curve while time passes -----

  /** `shiftCurve` in freeze mode: every pillar comes nearer, but never nearer than one day. */
  function Freeze(p: seq<Pillar>, delta: real): seq<Pillar> {
    seq(|p|, i requires 0 <= i < |p| => p[i].(tenor := Max(1.0, p[i].tenor - delta)))
  }

  lemma {:induction false} ShiftedSegment(p: seq<Pillar>, q: seq<Pillar>, delta: real, i: nat, t: real)
    requires |p| == |q| && i < |p| && forall j :: 0 <= j < |p| ==> q[j].tenor == p[j].tenor - delta
    ensures Segment(q, i, t) == Segment(p, i, t + delta)
    decreases |p| - i
  {
    if i + 1 < |p| {
      ShiftedSegment(p, q, delta, i + 1, t);
    }
  }

  lemma {:induction false} ShiftedWeighted(p: seq<Pillar>, q: seq<Pillar>, delta: real, n: nat, t: real)
    requires p != [] && |p| == |q| && n <= |p| && Defined(p, t + delta) && Defined(q, t)
    requires forall j :: 0 <= j < |p| ==> q[j].rate == p[j].rate
    requires forall j :: Weight(q, j, t) == Weight(p, j, t + delta)
    ensures Weighted(q, n, t) == Weighted(p, n, t + delta)
  {
    hide Weight, Defined;
    if n > 0 {
      ShiftedWeighted(p, q, delta, n - 1, t);
    }
  }

  /** While every pillar is more than the elapsed days away, the frozen curve is the old one seen later. */
  lemma FrozenCurveIsSameCurve(p: seq<Pillar>, delta: real, t: real)
    requires forall i :: 0 <= i < |p| ==> p[i].tenor >= delta + 1.0
    requires Defined(p, t + delta)
    ensures Defined(Freeze(p, delta), t) && Zero(Freeze(p, delta), t) == Zero(p, t + delta)
  {
    var q := Freeze(p, delta);
    if p != [] {
      ShiftedSegment(p, q, delta, 0, t);
      ShiftedWeighted(p, q, delta, |p|, t);
    }
  }

  /** A pillar overtaken by time is clamped to one day, and the rate in between is no longer the old one. */
  lemma ClampedCurveDiffers()
    ensures var p := [Pillar(1.0, 0.0), Pillar(9.0, 0.08)];
            Defined(p, 7.0) && Defined(Freeze(p, 4.0), 3.0) && Zero(Freeze(p, 4.0), 3.0) == 0.04 && Zero(p, 7.0) == 0.06
  {
    var p := [Pillar(1.0, 0.0), Pillar(9.0, 0.08)];
    var q := Freeze(p, 4.0);
    assert q == [Pillar(1.0, 0.0), Pillar(5.0, 0.08)];
    SortedIsDefined(p, 7.0);
    SortedIsDefined(q, 3.0);
    assert Holds(p, 0, 7.0) && Holds(q, 0, 3.0);
    RateOnSegment(p, 7.0, 0, 0.75);
    RateOnSegment(q, 3.0, 0, 0.5);
  }

  // ----- Exactly when freezing keeps the curve -----

  /** Overtaken pillars, and the one after the last of them, carry the first pillar's rate. */
  ghost predicate FlatWhereOvertaken(p: seq<Pillar>, delta: real) {
    forall i :: 0 <= i < |p| && p[i].tenor < delta + 1.0 ==>
      p[i].rate == p[0].rate && (i + 1 < |p| ==> p[i + 1].rate == p[0].rate)
  }

  /** The frozen curve at t is the old one at t plus the shift, for all t. */
  ghost predicate FreezeKeeps(p: seq<Pillar>, delta: real)
    requires Ascending(p)
  {
    forall t :: SameAfterFreeze(p, delta, t)
  }

  ghost predicate SameAfterFreeze(p: seq<Pillar>, delta: real, t: real)
    requires Ascending(p)
  {
    FrozenDefined(p, delta, t);
    Zero(Freeze(p, delta), t) == Zero(p, t + delta)
  }

  lemma FrozenDefined(p: seq<Pillar>, delta: real, t: real)
    requires Ascending(p)
    ensures Sorted(p) && Sorted(Freeze(p, delta)) && Defined(p, t + delta) && Defined(Freeze(p, delta), t)
  {
    SortedIsDefined(p, t + delta);
    SortedIsDefined(Freeze(p, delta), t);
  }

  /** Linear interpolation between two pillars. */
  function Between(a: Pillar, b: Pillar, t: real): real
    requires a.tenor < b.tenor
  {
    a.rate + (t - a.tenor) / (b.tenor - a.tenor) * (b.rate - a.rate)
  }

  /** The rate in a segment that starts before `t`. */
  lemma RateInSegment(p: seq<Pillar>, t: real, i: nat)
    requires Sorted(p) && i + 1 < |p| && p[i].tenor < t <= p[i + 1].tenor && t < p[|p| - 1].tenor
    ensures Defined(p, t) && Zero(p, t) == Between(p[i], p[i + 1], t)
  {
    SortedIsDefined(p, t);
    SegmentIs(p, t, i);
    RateOnSegment(p, t, i, (t - p[i].tenor) / (p[i + 1].tenor - p[i].tenor));
  }

  lemma SegmentIs(p: seq<Pillar>, t: real, i: nat)
    requires Sorted(p) && i + 1 < |p| && p[i].tenor < t <= p[i + 1].tenor
    ensures Segment(p, 0, t) == i && p[0].tenor < t
  {
    assert Holds(p, i, t);
  }

  lemma BetweenFlat(a: Pillar, b: Pillar, t: real)
    requires a.tenor < b.tenor && a.rate == b.rate
    ensures Between(a, b, t) == a.rate
  {
    ZeroProduct(b.rate - a.rate, (t - a.tenor) / (b.tenor - a.tenor));
  }

  lemma BetweenShifted(a: Pillar, b: Pillar, t: real, c: Pillar, d: Pillar, u: real)
    requires a.tenor < b.tenor && c.tenor < d.tenor && c.rate == a.rate && d.rate == b.rate
    requires t - a.tenor == u - c.tenor && b.tenor - a.tenor == d.tenor - c.tenor
    ensures Between(a, b, t) == Between(c, d, u)
  {
  }

  lemma BetweenAtEnd(a: Pillar, b: Pillar)
    requires a.tenor < b.tenor
    ensures Between(a, b, b.tenor) == b.rate
  {
    assert (b.tenor - a.tenor) / (b.tenor - a.tenor) == 1.0;
  }

  /** Only a flat segment still has the first rate further on. */
  lemma BetweenStays(a: Pillar, b: Pillar, t: real)
    requires a.tenor < b.tenor && a.tenor < t && Between(a, b, t) == a.rate
    ensures a.rate == b.rate
  {
    var frac, step := (t - a.tenor) / (b.tenor - a.tenor), b.rate - a.rate;
    PositiveQuotient(t - a.tenor, b.tenor - a.tenor);
    if step > 0.0 {
      PositiveStep(frac, step);
    } else if step < 0.0 {
      PositiveStep(frac, -step);
    }
  }

  lemma PositiveQuotient(a: real, b: real)
    requires a > 0.0 && b > 0.0
    ensures a / b > 0.0
  {
  }

  lemma PositiveStep(x: real, y: real)
    requires x > 0.0 && y > 0.0
    ensures x * y > 0.0 && x * -y < 0.0
  {
  }

  lemma EndRates(p: seq<Pillar>, t: real)
    requires p != [] && Sorted(p)
    ensures Defined(p, t)
    ensures t <= p[0].tenor ==> Zero(p, t) == p[0].rate
    ensures t > p[0].tenor && t >= p[|p| - 1].tenor ==> Zero(p, t) == p[|p| - 1].rate
  {
    SortedIsDefined(p, t);
    if t <= p[0].tenor {
      RateAtPillar(p, t, 0);
    } else if t >= p[|p| - 1].tenor {
      RateAtPillar(p, t, |p| - 1);
    }
  }

  /** A curve quotes each pillar's rate at its tenor. */
  lemma RateAtTenor(p: seq<Pillar>, k: nat)
    requires Ascending(p) && k < |p|
    ensures Defined(p, p[k].tenor) && Zero(p, p[k].tenor) == p[k].rate
  {
    var t := p[k].tenor;
    if k == 0 || k == |p| - 1 {
      EndRates(p, t);
    } else {
      RateInSegment(p, t, k - 1);
      BetweenAtEnd(p[k - 1], p[k]);
    }
  }

  /** The segment of an ascending curve that `t` falls in. */
  lemma {:induction false} FindSegment(p: seq<Pillar>, t: real, n: nat) returns (i: nat)
    requires n < |p| && p[0].tenor < t <= p[n].tenor
    ensures i < n && p[i].tenor < t <= p[i + 1].tenor
  {
    if p[n - 1].tenor < t {
      i := n - 1;
    } else {
      i := FindSegment(p, t, n - 1);
    }
  }

  lemma FlatFreezeKeeps(p: seq<Pillar>, delta: real, t: real)
    requires Ascending(p) && FlatWhereOvertaken(p, delta)
    ensures SameAfterFreeze(p, delta, t)
  {
    var u, last := t + delta, |p| - 1;
    FrozenDefined(p, delta, t);
    if p != [] {
      if p[0].tenor < u < p[last].tenor {
        var i := FindSegment(p, u, last);
        InnerFreezeKeeps(p, delta, t, i);
      } else {
        OuterFreezeKeeps(p, delta, t);
      }
    }
  }

  lemma OuterFreezeKeeps(p: seq<Pillar>, delta: real, t: real)
    requires Ascending(p) && FlatWhereOvertaken(p, delta) && p != []
    requires t + delta <= p[0].tenor || t + delta >= p[|p| - 1].tenor
    ensures SameAfterFreeze(p, delta, t)
  {
    var q, last := Freeze(p, delta), |p| - 1;
    FrozenDefined(p, delta, t);
    hide Zero, Defined;
    EndRates(p, t + delta);
    EndRates(q, t);
    if t + delta > p[0].tenor && t <= q[0].tenor && last > 0 {
      assert p[last - 1].tenor < delta + 1.0;
      assert p[last - 1 + 1].rate == p[0].rate;
    }
  }

  lemma InnerFreezeKeeps(p: seq<Pillar>, delta: real, t: real, i: nat)
    requires Ascending(p) && FlatWhereOvertaken(p, delta) && i + 1 < |p|
    requires p[i].tenor < t + delta <= p[i + 1].tenor && t + delta < p[|p| - 1].tenor
    ensures SameAfterFreeze(p, delta, t)
  {
    var q, u := Freeze(p, delta), t + delta;
    FrozenDefined(p, delta, t);
    hide Zero, Defined, Between;
    RateInSegment(p, u, i);
    if p[i].tenor >= delta + 1.0 {
      RateInSegment(q, t, i);
      BetweenShifted(p[i], p[i + 1], u, q[i], q[i + 1], t);
    } else {
      BetweenFlat(p[i], p[i + 1], u);
      if t <= q[0].tenor {
        EndRates(q, t);
      } else {
        RateInSegment(q, t, i);
        BetweenFlat(q[i], q[i + 1], t);
      }
    }
  }

  lemma KeptFreezeIsFlat(p: seq<Pillar>, delta: real, i: nat)
    requires Ascending(p) && FreezeKeeps(p, delta) && i < |p| && p[i].tenor < delta + 1.0
    ensures p[i].rate == p[0].rate && (i + 1 < |p| ==> p[i + 1].rate == p[0].rate)
  {
    OvertakenIsFlat(p, delta, i);
    if i + 1 < |p| {
      if p[i + 1].tenor <= delta + 1.0 {
        OvertakenIsFlat(p, delta, i + 1);
      } else {
        BeyondIsFlat(p, delta, i);
      }
    }
  }

  lemma BeyondIsFlat(p: seq<Pillar>, delta: real, i: nat)
    requires Ascending(p) && FreezeKeeps(p, delta) && i + 1 < |p| && p[i].tenor < delta + 1.0 < p[i + 1].tenor
    requires p[i].rate == p[0].rate
    ensures p[i + 1].rate == p[0].rate
  {
    var u := 1.0 + delta;
    assert SameAfterFreeze(p, delta, 1.0);
    FrozenDefined(p, delta, 1.0);
    hide Zero, Defined, Between;
    EndRates(Freeze(p, delta), 1.0);
    RateInSegment(p, u, i);
    BetweenStays(p[i], p[i + 1], u);
  }

  lemma OvertakenIsFlat(p: seq<Pillar>, delta: real, i: nat)
    requires Ascending(p) && FreezeKeeps(p, delta) && i < |p| && p[i].tenor <= delta + 1.0
    ensures p[i].rate == p[0].rate
  {
    var t := p[i].tenor - delta;
    assert SameAfterFreeze(p, delta, t);
    FrozenDefined(p, delta, t);
    RateAtTenor(p, i);
    assert t + delta == p[i].tenor;
    EndRates(Freeze(p, delta), t);
  }

  /** Freezing keeps an ascending curve exactly when it is flat over the overtaken pillars and up to the next one. */
  lemma FreezeKeepsIff(p: seq<Pillar>, delta: real)
    requires Ascending(p)
    ensures FreezeKeeps(p, delta) <==> FlatWhereOvertaken(p, delta)
  {
    if FreezeKeeps(p, delta) {
      forall i | 0 <= i < |p| && p[i].tenor < delta + 1.0
        ensures p[i].rate == p[0].rate && (i + 1 < |p| ==> p[i + 1].rate == p[0].rate)
      {
        KeptFreezeIsFlat(p, delta, i);
      }
    } else {
      var t :| !SameAfterFreeze(p, delta, t);
      if FlatWhereOvertaken(p, delta) {
        FlatFreezeKeeps(p, delta, t);
      }
    }
  }
}
