/**
 The compounded-in-arrears coupon of an overnight-rate leg: a positional window over the published
 fixings, each fixing accruing until the next one, and a projected tail.
 */
module Compounding {
  import opened Numbers
  import opened Options
  import Sorting

  datatype Observation = Observation(date: int, rate: real)
  datatype Family = SOFR | ESTR | SONIA | TONA | SARON | TIIE | CORRA | BBSW | HONIA
  datatype Index = Index(family: Family, lookback: nat, floor: Option<real>)

  // The curve's zero rate by tenor days, and its value date.
  datatype Forward = Forward(asOf: int, zero: int -> real)
  datatype Period = Period(start: int, end: int)

  function Basis(f: Family): real {
    if f == SONIA || f == TONA then 365.0 else 360.0
  }

  // ----- Sorting by date -----

  function DateOf(o: Observation): int { o.date }

  function SortByDate(obs: seq<Observation>): seq<Observation> { Sorting.SortBy(obs, DateOf) }

  ghost predicate ByDate(s: seq<Observation>) {
    forall i, j :: 0 <= i < j < |s| ==> s[i].date <= s[j].date
  }

  ghost predicate DistinctDates(s: seq<Observation>) {
    forall i, j :: 0 <= i < j < |s| ==> s[i].date != s[j].date
  }

  lemma SortSorts(obs: seq<Observation>)
    ensures ByDate(SortByDate(obs)) && multiset(SortByDate(obs)) == multiset(obs)
  {
    Sorting.SortSorts(obs, DateOf);
    hide Sorting.SortBy;
  }

  lemma DistinctByMultiset(a: seq<Observation>, b: seq<Observation>)
    requires multiset(a) == multiset(b) && DistinctDates(a)
    ensures forall x, y :: x in b && y in b && x.date == y.date ==> x == y
    ensures forall x :: x in b ==> multiset(b)[x] == 1
  {
    forall x, y | x in b && y in b && x.date == y.date
      ensures x == y
    {
      assert x in multiset(b) && y in multiset(b);
      assert x in a && y in a;
    }
    forall x | x in b
      ensures multiset(b)[x] == 1
    {
      assert x in multiset(b);
      assert x in a;
      CountOnce(a, x);
    }
  }

  lemma {:induction false} CountOnce(a: seq<Observation>, x: Observation)
    requires DistinctDates(a) && x in a
    ensures multiset(a)[x] == 1
  {
    var n := |a| - 1;
    assert a == a[..n] + [a[n]];
    if a[n] == x {
      assert x !in a[..n];
      assert x !in multiset(a[..n]);
    } else {
      assert x in a[..n];
      CountOnce(a[..n], x);
    }
  }

  /** Two date-ordered arrangements of the same observations on distinct dates are the same. */
  lemma {:induction false} SortedUnique(s: seq<Observation>, t: seq<Observation>)
    requires ByDate(s) && ByDate(t) && multiset(s) == multiset(t)
    requires forall x, y :: x in s && y in s && x.date == y.date ==> x == y
    ensures s == t
  {
    assert |multiset(s)| == |s| && |multiset(t)| == |t|;
    if s != [] {
      SameFirst(s, t);
      MultisetTail(s);
      MultisetTail(t);
      SortedUnique(s[1..], t[1..]);
    }
  }

  lemma MultisetTail(s: seq<Observation>)
    requires s != []
    ensures multiset(s[1..]) == multiset(s) - multiset{s[0]}
  {
    assert s == [s[0]] + s[1..];
  }

  lemma SameFirst(s: seq<Observation>, t: seq<Observation>)
    requires ByDate(s) && ByDate(t) && multiset(s) == multiset(t) && s != [] && t != []
    requires forall x, y :: x in s && y in s && x.date == y.date ==> x == y
    ensures s[0] == t[0]
  {
    assert s[0] in multiset(t) && t[0] in multiset(s);
    assert s[0] in t && t[0] in s;
    assert s[0].date <= t[0].date && t[0].date <= s[0].date;
  }

  // ----- The coupon -----

  /** Position of the first observation on or after `t`, |s| if there is none. */
  function FirstAfter(s: seq<Observation>, t: int): (r: nat)
    ensures r <= |s|
    ensures r < |s| ==> s[r].date >= t
    ensures forall i :: 0 <= i < r ==> s[i].date < t
  {
    if s == [] then 0
    else if s[0].date >= t then 0
    else 1 + FirstAfter(s[1..], t)
  }

  function WindowStart(s: seq<Observation>, lookback: nat, p: Period): nat {
    MaxInt(0, FirstAfter(s, p.start) - lookback)
  }

  function WindowEnd(s: seq<Observation>, lookback: nat, p: Period): (r: nat)
    ensures WindowStart(s, lookback, p) <= r <= |s|
  {
    MaxInt(WindowStart(s, lookback, p), FirstAfter(s, p.end) - lookback)
  }

  function Window(s: seq<Observation>, lookback: nat, p: Period): seq<Observation> {
    s[WindowStart(s, lookback, p)..WindowEnd(s, lookback, p)]
  }

  /** Days the i-th fixing of the window accrues: to the next fixing, the last one to the period end. */
  function Days(w: seq<Observation>, i: nat, end: int): int
    requires i < |w|
  {
    (if i + 1 < |w| then w[i + 1].date else end) - w[i].date
  }

  function Floored(rate: real, floor: Option<real>): real {
    if floor.Some? && rate < floor.value then floor.value else rate
  }

  /** Days as a fraction of the year basis. */
  function Tau(days: int, f: Family): real { days as real / Basis(f) }

  /** One period of simple interest on top of `accrual`. */
  function Grow(accrual: real, rate: real, tau: real): real { accrual * (1.0 + rate * tau) }

  /** One plus the interest of the first `n` fixings, compounded. */
  function Accrual(w: seq<Observation>, n: nat, end: int, index: Index): real
    requires n <= |w|
  {
    if n == 0 then 1.0
    else
      Grow(Accrual(w, n - 1, end, index), Floored(w[n - 1].rate, index.floor), Tau(Days(w, n - 1, end), index.family))
  }

  /** Where the projected tail starts; the period end when there is none. */
  function TailStart(s: seq<Observation>, lookback: nat, p: Period): int {
    if Window(s, lookback, p) == [] then p.start
    else if WindowEnd(s, lookback, p) < |s| then s[WindowEnd(s, lookback, p)].date
    else p.end
  }

  function TailDays(s: seq<Observation>, lookback: nat, p: Period): nat {
    MaxInt(0, p.end - TailStart(s, lookback, p))
  }

  function WithTail(accrual: real, curve: Forward, s: seq<Observation>, index: Index, p: Period): real {
    var tail := TailDays(s, index.lookback, p);
    if tail == 0 then accrual
    else
      var tenorDays := MaxInt(1, TailStart(s, index.lookback, p) - curve.asOf);
      Grow(accrual, curve.zero(tenorDays), Tau(tail, index.family))
  }

  /** The accrual over the sorted observations, tail included. */
  function Compounded(curve: Forward, index: Index, s: seq<Observation>, p: Period): real {
    var w := Window(s, index.lookback, p);
    WithTail(Accrual(w, |w|, p.end, index), curve, s, index, p)
  }

  function Coupon(curve: Forward, index: Index, obs: seq<Observation>, p: Period, notional: real): real {
    Earned(notional, Compounded(curve, index, SortByDate(obs), p))
  }

  function Earned(notional: real, factor: real): real { notional * (factor - 1.0) }

  method CalcCompoundedCashflow(curve: Forward, index: Index, observations: seq<Observation>, period: Period,
                                notional: real)
    returns (amount: real)
    ensures amount == Coupon(curve, index, observations, period, notional)
  {
    hide Grow, Tau, Basis, SortByDate, FirstAfter, Earned;
    var sorted := SortByDate(observations);
    var startIdx, endIdx := FirstAfter(sorted, period.start), FirstAfter(sorted, period.end);
    var shiftedStart := MaxInt(0, startIdx - index.lookback);
    var shiftedEnd := MaxInt(shiftedStart, endIdx - index.lookback);
    var window := sorted[shiftedStart..shiftedEnd];

    var accrual := 1.0;
    for i := 0 to |window|
      invariant accrual == Accrual(window, i, period.end, index)
    {
      var cur := window[i];
      var next := if i + 1 < |window| then window[i + 1].date else period.end;
      var r := if index.floor.Some? && cur.rate < index.floor.value then index.floor.value else cur.rate;
      accrual := Grow(accrual, r, Tau(next - cur.date, index.family));
    }

    var lastObsEnd := if |window| == 0 then period.start
                      else if shiftedEnd < |sorted| then sorted[shiftedEnd].date else period.end;
    if lastObsEnd < period.end {
      var tailStart := if |window| > 0 then lastObsEnd else period.start;
      var tenorDays := MaxInt(1, tailStart - curve.asOf);
      var fwdRate := curve.zero(tenorDays);
      accrual := Grow(accrual, fwdRate, Tau(period.end - tailStart, index.family));
    }
    assert accrual == Compounded(curve, index, sorted, period);
    amount := Earned(notional, accrual);
  }

  // ----- What the coupon means -----

  /** On distinct dates the coupon does not depend on the order the observations arrive in. */
  lemma OrderDoesNotMatter(curve: Forward, index: Index, a: seq<Observation>, b: seq<Observation>, p: Period,
                           notional: real)
    requires multiset(a) == multiset(b) && DistinctDates(a)
    ensures Coupon(curve, index, a, p, notional) == Coupon(curve, index, b, p, notional)
  {
    hide Compounded;
    SameOrder(a, b);
  }

  lemma SameOrder(a: seq<Observation>, b: seq<Observation>)
    requires multiset(a) == multiset(b) && DistinctDates(a)
    ensures SortByDate(a) == SortByDate(b)
  {
    SortSorts(a);
    SortSorts(b);
    DistinctByMultiset(a, SortByDate(a));
    hide SortByDate, DistinctDates;
    SortedUnique(SortByDate(a), SortByDate(b));
  }

  /** Every fixing of the window is dated before the period end, so every accrual weight is non-negative. */
  lemma WeightsNonNegative(s: seq<Observation>, lookback: nat, p: Period)
    requires ByDate(s)
    ensures var w := Window(s, lookback, p); forall i :: 0 <= i < |w| ==> Days(w, i, p.end) >= 0
  {
    var w := Window(s, lookback, p);
    var from := WindowStart(s, lookback, p);
    forall i | 0 <= i < |w|
      ensures Days(w, i, p.end) >= 0
    {
      assert w[i] == s[from + i];
      if i + 1 == |w| {
        assert from + i < FirstAfter(s, p.end);
      } else {
        assert w[i + 1] == s[from + i + 1];
      }
    }
  }

  function SumDays(w: seq<Observation>, n: nat, end: int): int
    requires n <= |w|
  {
    if n == 0 then 0 else SumDays(w, n - 1, end) + Days(w, n - 1, end)
  }

  lemma {:induction false} DaysTelescope(w: seq<Observation>, n: nat, end: int)
    requires 0 < n <= |w|
    ensures SumDays(w, n, end) == (if n < |w| then w[n].date else end) - w[0].date
  {
    if n > 1 {
      DaysTelescope(w, n - 1, end);
    }
  }

  /**
   With a lookback the tail starts at a fixing before the period end, which the last fixing's weight already spans.
   */
  lemma TailIffLookback(s: seq<Observation>, lookback: nat, p: Period)
    requires ByDate(s) && Window(s, lookback, p) != []
    ensures TailDays(s, lookback, p) == 0 <==> lookback == 0
  {
    var to := WindowEnd(s, lookback, p);
    assert to == FirstAfter(s, p.end) - lookback;
  }

  /**
   Weights and tail cover the days from the first fixing to the period end exactly once just when there is no lookback.
   */
  lemma WeightsTileIffNoLookback(s: seq<Observation>, lookback: nat, p: Period)
    requires ByDate(s) && Window(s, lookback, p) != []
    ensures var w := Window(s, lookback, p);
            && SumDays(w, |w|, p.end) == p.end - w[0].date
            && (SumDays(w, |w|, p.end) + TailDays(s, lookback, p) == p.end - w[0].date <==> lookback == 0)
  {
    var w := Window(s, lookback, p);
    TailIffLookback(s, lookback, p);
    hide Window, TailDays;
    DaysTelescope(w, |w|, p.end);
  }

  /** Without lookback no later fixing is left before the period end: the fixings tile it exactly once. */
  lemma NoLookbackTiles(s: seq<Observation>, p: Period)
    requires ByDate(s) && Window(s, 0, p) != []
    ensures var w := Window(s, 0, p);
            SumDays(w, |w|, p.end) == p.end - w[0].date && TailDays(s, 0, p) == 0 && p.start <= w[0].date
  {
    var w := Window(s, 0, p);
    DaysTelescope(w, |w|, p.end);
    assert w[0] == s[FirstAfter(s, p.start)];
  }

  /** With lookback 1 the third fixing below is skipped by the window, and its days are weighted twice. */
  lemma LookbackWeightsTwice()
    ensures var s := [Observation(0, 0.05), Observation(1, 0.05), Observation(2, 0.05)];
            var p := Period(1, 3);
            ByDate(s) && Window(s, 1, p) == [Observation(0, 0.05), Observation(1, 0.05)]
            && SumDays(Window(s, 1, p), 2, p.end) == 3 && TailDays(s, 1, p) == 1
  {
    var s := [Observation(0, 0.05), Observation(1, 0.05), Observation(2, 0.05)];
    var p := Period(1, 3);
    assert FirstAfter(s[1..], 1) == 0 && FirstAfter(s, 1) == 1;
    assert s[1..][1..] == s[2..] && s[2..][1..] == [];
    assert FirstAfter(s[2..], 3) == 1 && FirstAfter(s[1..], 3) == 2 && FirstAfter(s, 3) == 3;
    var w := Window(s, 1, p);
    assert w == s[0..2];
    DaysTelescope(w, 2, p.end);
  }

  /** With no fixing in the window the coupon is one simple forward period. */
  lemma EmptyWindowIsForward(curve: Forward, index: Index, obs: seq<Observation>, p: Period, notional: real)
    requires Window(SortByDate(obs), index.lookback, p) == [] && p.start < p.end
    ensures Coupon(curve, index, obs, p, notional)
            == notional
               * (Grow(1.0, curve.zero(MaxInt(1, p.start - curve.asOf)), Tau(p.end - p.start, index.family)) - 1.0)
  {
  }

  /** Pointwise higher rates, and a higher floor. */
  ghost predicate RatesBelow(w: seq<Observation>, i: Index, v: seq<Observation>, j: Index) {
    && |w| == |v| && i.family == j.family
    && (forall k :: 0 <= k < |w| ==> w[k].date == v[k].date)
    && (forall k :: 0 <= k < |w| ==> 0.0 <= Floored(w[k].rate, i.floor) <= Floored(v[k].rate, j.floor))
  }

  lemma MulMonotone(a: real, b: real, x: real, y: real)
    requires 0.0 <= a <= b && 0.0 <= x <= y
    ensures 0.0 <= a * x <= b * y
  {
    assert a * x <= a * y && a * y <= b * y;
  }

  lemma TauNonNegative(days: int, f: Family)
    requires days >= 0
    ensures Tau(days, f) >= 0.0
  {
  }

  lemma GrowMonotone(a: real, b: real, r: real, q: real, tau: real)
    requires 1.0 <= a <= b && 0.0 <= r <= q && 0.0 <= tau
    ensures 1.0 <= Grow(a, r, tau) <= Grow(b, q, tau)
  {
    MulMonotone(r, q, tau, tau);
    MulMonotone(1.0, a, 1.0, 1.0 + r * tau);
    MulMonotone(a, b, 1.0 + r * tau, 1.0 + q * tau);
  }

  /** Over the same dates, the compounded factor is monotone in every rate and in the floor. */
  lemma {:induction false} AccrualMonotone(w: seq<Observation>, i: Index, v: seq<Observation>, j: Index, n: nat,
                                           end: int)
    requires RatesBelow(w, i, v, j) && n <= |w|
    requires forall k :: 0 <= k < |w| ==> Days(w, k, end) >= 0
    ensures 1.0 <= Accrual(w, n, end, i) <= Accrual(v, n, end, j)
  {
    hide Grow, Tau, Floored;
    if n > 0 {
      AccrualMonotone(w, i, v, j, n - 1, end);
      TauNonNegative(Days(w, n - 1, end), i.family);
      assert Days(v, n - 1, end) == Days(w, n - 1, end);
      GrowMonotone(Accrual(w, n - 1, end, i), Accrual(v, n - 1, end, j), Floored(w[n - 1].rate, i.floor),
                   Floored(v[n - 1].rate, j.floor), Tau(Days(w, n - 1, end), i.family));
    }
  }

  /** Simple interest of the first `n` fixings over the same weights. */
  function Simple(w: seq<Observation>, n: nat, end: int, index: Index): real
    requires n <= |w|
  {
    if n == 0 then 0.0
    else Simple(w, n - 1, end, index)
         + Interest(Floored(w[n - 1].rate, index.floor), Tau(Days(w, n - 1, end), index.family))
  }

  function Interest(rate: real, tau: real): real { rate * tau }

  lemma GrowBeatsSimple(a: real, simple: real, r: real, tau: real)
    requires a - 1.0 >= simple >= 0.0 && 0.0 <= r && 0.0 <= tau
    ensures Grow(a, r, tau) - 1.0 >= simple + Interest(r, tau) >= 0.0
  {
    MulMonotone(0.0, r, 0.0, tau);
    MulMonotone(1.0, a, r * tau, r * tau);
    assert a * (1.0 + r * tau) == a + a * (r * tau);
  }

  /** Compounding never earns less than simple interest when the floored rates are non-negative. */
  lemma {:induction false} CompoundBeatsSimple(w: seq<Observation>, n: nat, end: int, index: Index)
    requires n <= |w|
    requires forall k :: 0 <= k < |w| ==> Days(w, k, end) >= 0 && Floored(w[k].rate, index.floor) >= 0.0
    ensures Accrual(w, n, end, index) - 1.0 >= Simple(w, n, end, index) >= 0.0
  {
    hide Grow, Tau, Floored, Interest;
    if n > 0 {
      CompoundBeatsSimple(w, n - 1, end, index);
      TauNonNegative(Days(w, n - 1, end), index.family);
      GrowBeatsSimple(Accrual(w, n - 1, end, index), Simple(w, n - 1, end, index),
                      Floored(w[n - 1].rate, index.floor), Tau(Days(w, n - 1, end), index.family));
    }
  }

  // ----- The tail -----

  /** The forward rate of the projected tail. */
  function TailRate(curve: Forward, s: seq<Observation>, lookback: nat, p: Period): real {
    curve.zero(MaxInt(1, TailStart(s, lookback, p) - curve.asOf))
  }

  /** What the tail multiplies the accrual by. */
  function TailFactor(curve: Forward, s: seq<Observation>, index: Index, p: Period): real {
    var tail := TailDays(s, index.lookback, p);
    if tail == 0 then 1.0 else Grow(1.0, TailRate(curve, s, index.lookback, p), Tau(tail, index.family))
  }

  /** Simple interest of the tail. */
  function TailInterest(curve: Forward, s: seq<Observation>, index: Index, p: Period): real {
    var tail := TailDays(s, index.lookback, p);
    if tail == 0 then 0.0 else Interest(TailRate(curve, s, index.lookback, p), Tau(tail, index.family))
  }

  /** For every lookback and window, the compounded factor is never below simple interest, the tail's included. */
  lemma CompoundedBeatsSimple(curve: Forward, index: Index, obs: seq<Observation>, p: Period)
    requires forall k :: 0 <= k < |obs| ==> Floored(obs[k].rate, index.floor) >= 0.0
    requires var s := SortByDate(obs);
             TailDays(s, index.lookback, p) > 0 ==> TailRate(curve, s, index.lookback, p) >= 0.0
    ensures var s := SortByDate(obs);
            var w := Window(s, index.lookback, p);
            Compounded(curve, index, s, p) - 1.0
            >= Simple(w, |w|, p.end, index) + TailInterest(curve, s, index, p)
            >= 0.0
  {
    var s := SortByDate(obs);
    var w := Window(s, index.lookback, p);
    WindowRates(obs, index, p);
    SortSorts(obs);
    WeightsNonNegative(s, index.lookback, p);
    hide Floored, Accrual, Simple, Window, TailDays, TailRate, TailInterest, WithTail, SortByDate;
    CompoundBeatsSimple(w, |w|, p.end, index);
    TailBeatsSimple(Accrual(w, |w|, p.end, index), Simple(w, |w|, p.end, index), curve, s, index, p);
  }

  lemma TailBeatsSimple(accrual: real, simple: real, curve: Forward, s: seq<Observation>, index: Index, p: Period)
    requires accrual - 1.0 >= simple >= 0.0
    requires TailDays(s, index.lookback, p) > 0 ==> TailRate(curve, s, index.lookback, p) >= 0.0
    ensures WithTail(accrual, curve, s, index, p) - 1.0 >= simple + TailInterest(curve, s, index, p) >= 0.0
  {
    hide TailDays, TailStart, Grow, Tau, Interest;
    var tail := TailDays(s, index.lookback, p);
    if tail > 0 {
      TauNonNegative(tail, index.family);
      GrowBeatsSimple(accrual, simple, TailRate(curve, s, index.lookback, p), Tau(tail, index.family));
    }
  }

  lemma {:induction false} FirstAfterByDates(s: seq<Observation>, v: seq<Observation>, t: int)
    requires |s| == |v| && forall k :: 0 <= k < |s| ==> s[k].date == v[k].date
    ensures FirstAfter(s, t) == FirstAfter(v, t)
  {
    if s != [] {
      FirstAfterByDates(s[1..], v[1..], t);
    }
  }

  lemma PositiveProduct(x: real, y: real)
    requires x > 0.0 && y > 0.0
    ensures x * y > 0.0
  {
  }

  lemma DifferenceTimes(a: real, b: real, k: real)
    ensures (b - a) * k == b * k - a * k && (b - a) * -k == a * k - b * k
  {
  }

  function Carried(accrual: real, factor: real): real { accrual * factor }

  lemma ProductKeepsOrderIff(a: real, b: real, factor: real)
    requires a <= b
    ensures Carried(a, factor) <= Carried(b, factor) <==> factor >= 0.0 || a == b
  {
    DifferenceTimes(a, b, factor);
    if a < b && factor > 0.0 {
      PositiveProduct(b - a, factor);
    } else if a < b && factor < 0.0 {
      PositiveProduct(b - a, -factor);
    }
  }

  lemma WithTailIsProduct(accrual: real, curve: Forward, s: seq<Observation>, index: Index, p: Period)
    ensures WithTail(accrual, curve, s, index, p) == Carried(accrual, TailFactor(curve, s, index, p))
  {
    hide Tau, TailStart, TailDays;
  }

  /** The accruals of two sets of fixings, before the tail. */
  predicate SameAccrual(s: seq<Observation>, i: Index, v: seq<Observation>, j: Index, p: Period) {
    var w, x := Window(s, i.lookback, p), Window(v, j.lookback, p);
    Accrual(w, |w|, p.end, i) == Accrual(x, |x|, p.end, j)
  }

  /**
   The whole factor is monotone in every published rate and in the floor, unless a negative tail factor turns a rise
   over.
   */
  lemma CompoundedMonotoneIff(curve: Forward, i: Index, j: Index, s: seq<Observation>, v: seq<Observation>, p: Period)
    requires ByDate(s) && RatesBelow(s, i, v, j) && i.lookback == j.lookback
    ensures Compounded(curve, i, s, p) <= Compounded(curve, j, v, p)
            <==> TailFactor(curve, s, i, p) >= 0.0 || SameAccrual(s, i, v, j, p)
  {
    var w, x := Window(s, i.lookback, p), Window(v, j.lookback, p);
    var a, b := Accrual(w, |w|, p.end, i), Accrual(x, |x|, p.end, j);
    SameWindows(s, i, v, j, p);
    SameTailFactor(curve, s, i, v, j, p);
    hide WithTail, Accrual, Window, TailFactor, Floored, Carried, RatesBelow, ByDate;
    WeightsNonNegative(s, i.lookback, p);
    AccrualMonotone(w, i, x, j, |w|, p.end);
    WithTailIsProduct(a, curve, s, i, p);
    WithTailIsProduct(b, curve, v, j, p);
    ProductKeepsOrderIff(a, b, TailFactor(curve, s, i, p));
  }

  lemma SameTailFactor(curve: Forward, s: seq<Observation>, i: Index, v: seq<Observation>, j: Index, p: Period)
    requires i.family == j.family && TailDays(s, i.lookback, p) == TailDays(v, j.lookback, p)
    requires TailStart(s, i.lookback, p) == TailStart(v, j.lookback, p)
    ensures TailFactor(curve, v, j, p) == TailFactor(curve, s, i, p)
  {
    hide Tau, Grow, TailStart, TailDays;
  }

  lemma {:induction false} InsertKeepsBelow(a: Observation, s: seq<Observation>, i: Index, b: Observation,
                                            v: seq<Observation>, j: Index)
    requires RatesBelow(s, i, v, j) && RatesBelow([a], i, [b], j)
    ensures RatesBelow(Sorting.Insert(a, s, DateOf), i, Sorting.Insert(b, v, DateOf), j)
  {
    assert a.date == b.date by { assert [a][0] == a && [b][0] == b; }
    if s == [] || a.date < s[0].date {
      JoinBelow([a], s, i, [b], v, j);
    } else {
      InsertKeepsBelow(a, s[1..], i, b, v[1..], j);
      JoinBelow([s[0]], Sorting.Insert(a, s[1..], DateOf), i, [v[0]], Sorting.Insert(b, v[1..], DateOf), j);
    }
  }

  lemma JoinBelow(a: seq<Observation>, s: seq<Observation>, i: Index, b: seq<Observation>, v: seq<Observation>,
                  j: Index)
    requires RatesBelow(s, i, v, j) && RatesBelow(a, i, b, j)
    ensures RatesBelow(a + s, i, b + v, j)
  {
    hide Floored;
  }

  /** Sorting moves both sets of fixings alike. */
  lemma {:induction false} SortKeepsBelow(a: seq<Observation>, i: Index, b: seq<Observation>, j: Index)
    requires RatesBelow(a, i, b, j)
    ensures RatesBelow(SortByDate(a), i, SortByDate(b), j)
  {
    if a != [] {
      var n := |a| - 1;
      SortKeepsBelow(a[..n], i, b[..n], j);
      assert RatesBelow([a[n]], i, [b[n]], j);
      hide RatesBelow, Sorting.Insert;
      InsertKeepsBelow(a[n], SortByDate(a[..n]), i, b[n], SortByDate(b[..n]), j);
    }
  }

  lemma EarnedGrows(notional: real, a: real, b: real)
    requires notional > 0.0 && a < b
    ensures Earned(notional, a) < Earned(notional, b)
  {
    PositiveProduct(notional, b - a);
    assert Earned(notional, b) == Earned(notional, a) + notional * (b - a);
  }

  lemma EarnedNegated(notional: real, a: real)
    ensures Earned(-notional, a) == -Earned(notional, a)
  {
  }

  lemma ScaledOrder(notional: real, a: real, b: real)
    ensures notional > 0.0 ==> (Earned(notional, a) <= Earned(notional, b) <==> a <= b)
    ensures notional < 0.0 ==> (Earned(notional, a) >= Earned(notional, b) <==> a <= b)
  {
    hide Earned;
    EarnedNegated(notional, a);
    EarnedNegated(notional, b);
    if a != b && notional != 0.0 {
      EarnedGrows(if notional > 0.0 then notional else -notional, if a < b then a else b, if a < b then b else a);
    }
  }

  /** So is the coupon, whatever the order of arrival; for a negative notional in the other direction. */
  lemma CouponMonotoneIff(curve: Forward, i: Index, a: seq<Observation>, j: Index, b: seq<Observation>, p: Period,
                          notional: real)
    requires RatesBelow(a, i, b, j) && i.lookback == j.lookback
    ensures var s, v := SortByDate(a), SortByDate(b);
            var keeps := TailFactor(curve, s, i, p) >= 0.0 || SameAccrual(s, i, v, j, p);
            var low, high := Coupon(curve, i, a, p, notional), Coupon(curve, j, b, p, notional);
            (notional > 0.0 ==> (low <= high <==> keeps)) && (notional < 0.0 ==> (high <= low <==> keeps))
  {
    SortKeepsBelow(a, i, b, j);
    SortSorts(a);
    hide Compounded, TailFactor, SameAccrual, RatesBelow, SortByDate, ByDate, Earned;
    CompoundedMonotoneIff(curve, i, j, SortByDate(a), SortByDate(b), p);
    ScaledOrder(notional, Compounded(curve, i, SortByDate(a), p), Compounded(curve, j, SortByDate(b), p));
  }

  const LONG_TAIL := Period(1, 362)
  const LAGGED := Index(SOFR, 1, None)
  const SINKING := Forward(0, (tenor: int) => -2.0)

  function Fixings(first: real): seq<Observation> { [Observation(0, first), Observation(1, 0.0), Observation(2, 0.0)] }

  lemma LaggedWindow(first: real)
    ensures ByDate(Fixings(first))
    ensures Window(Fixings(first), 1, LONG_TAIL) == [Observation(0, first), Observation(1, 0.0)]
    ensures TailDays(Fixings(first), 1, LONG_TAIL) == 360
  {
    var s := Fixings(first);
    assert s[1..][1..] == s[2..] && s[2..][1..] == [];
    assert FirstAfter(s[1..], 1) == 0 && FirstAfter(s, 1) == 1;
    assert FirstAfter(s[2..], 362) == 1 && FirstAfter(s[1..], 362) == 2 && FirstAfter(s, 362) == 3;
    assert Window(s, 1, LONG_TAIL) == s[0..2];
  }

  lemma LaggedFactor(first: real)
    ensures Compounded(SINKING, LAGGED, Fixings(first), LONG_TAIL) == -(1.0 + first / 360.0)
  {
    LaggedWindow(first);
    var w := [Observation(0, first), Observation(1, 0.0)];
    hide Window, TailDays, TailStart;
    assert Accrual(w, 1, 362, LAGGED) == 1.0 + first / 360.0;
    assert Accrual(w, 2, 362, LAGGED) == 1.0 + first / 360.0;
    assert Tau(360, SOFR) == 1.0;
  }

  /** Over a year's tail projected at -200%, a higher fixing gives a lower factor. */
  lemma NegativeTailFallsBack()
    ensures RatesBelow(Fixings(0.0), LAGGED, Fixings(0.36), LAGGED)
    ensures TailFactor(SINKING, Fixings(0.0), LAGGED, LONG_TAIL) < 0.0
    ensures Compounded(SINKING, LAGGED, Fixings(0.36), LONG_TAIL) < Compounded(SINKING, LAGGED, Fixings(0.0), LONG_TAIL)
  {
    LaggedFactor(0.0);
    LaggedFactor(0.36);
    LaggedWindow(0.0);
    hide Compounded;
  }

  lemma SameWindows(s: seq<Observation>, i: Index, v: seq<Observation>, j: Index, p: Period)
    requires RatesBelow(s, i, v, j) && i.lookback == j.lookback
    ensures RatesBelow(Window(s, i.lookback, p), i, Window(v, j.lookback, p), j)
    ensures TailDays(s, i.lookback, p) == TailDays(v, j.lookback, p)
    ensures TailStart(s, i.lookback, p) == TailStart(v, j.lookback, p)
  {
    hide FirstAfter, Floored;
    FirstAfterByDates(s, v, p.start);
    FirstAfterByDates(s, v, p.end);
  }

  lemma WindowRates(obs: seq<Observation>, index: Index, p: Period)
    requires forall k :: 0 <= k < |obs| ==> Floored(obs[k].rate, index.floor) >= 0.0
    ensures var w := Window(SortByDate(obs), index.lookback, p);
            forall k :: 0 <= k < |w| ==> Floored(w[k].rate, index.floor) >= 0.0
  {
    var s := SortByDate(obs);
    var w := Window(s, index.lookback, p);
    SortSorts(obs);
    forall k | 0 <= k < |w|
      ensures Floored(w[k].rate, index.floor) >= 0.0
    {
      assert w[k] in s && w[k] in multiset(s);
      assert w[k] in obs;
    }
  }
}
