/** What the spread of a float leg is worth under each strategy. */
module Spreads {
  import opened Calendar
  import opened Directions
  import opened Options
  import opened Pricing
  import opened Schedules
  import C = Compounding
  import Linearity
  import Valuation

  // ----- IRS and OIS with an index -----

  predicate SameButSpread(l: Leg, m: Leg) {
    m == l || (l.Float? && m.Float? && m == l.(spread := m.spread))
  }

  /** The same swap up to the spreads of its float legs. */
  ghost predicate SpreadsDiffer(s: Swap, t: Swap) {
    && t.kind == s.kind && t.maturityDate == s.maturityDate && |t.legs| == |s.legs|
    && forall i :: 0 <= i < |s.legs| ==> SameButSpread(s.legs[i], t.legs[i])
  }

  lemma IndexedCoupons(e: Engine, kind: SwapType, l: Leg, m: Leg, ctx: Context, i: nat)
    requires (kind.IRS? || kind.OIS?) && ctx.index.Some? && SameButSpread(l, m) && ValidLeg(l)
    ensures ValidLeg(m) && LegCoupons(e, kind, m, ctx, i) == LegCoupons(e, kind, l, ctx, i)
  {
    assert LegTerms(kind, m, ctx, i) == LegTerms(kind, l, ctx, i) by { hide ResolveProjection; }
    hide LegTerms, Coupons;
  }

  lemma IndexedLeg(e: Engine, s: Swap, t: Swap, ctx: Context, i: nat)
    requires ValidSwap(s) && ValidSwap(t) && SpreadsDiffer(s, t) && (s.kind.IRS? || s.kind.OIS?) && ctx.index.Some?
    requires i < |s.legs|
    ensures LegPV(e, t, ctx, i) == LegPV(e, s, ctx, i)
  {
    Valuation.LegIsValid(s, i);
    IndexedCoupons(e, s.kind, s.legs[i], t.legs[i], ctx, i);
    hide LegCoupons, LegDiscount, ValueOn, ValidSwap, Signed;
    assert LegLocalPV(e, t, ctx, i) == LegLocalPV(e, s, ctx, i);
  }

  lemma {:induction false} SameNpvOf(e: Engine, s: Swap, t: Swap, ctx: Context, n: nat)
    requires ValidSwap(s) && ValidSwap(t) && n <= |s.legs| == |t.legs|
    requires forall i :: 0 <= i < n ==> LegPV(e, t, ctx, i) == LegPV(e, s, ctx, i)
    ensures NpvOf(e, t, ctx, n) == NpvOf(e, s, ctx, n)
  {
    hide LegPV;
    if n > 0 {
      SameNpvOf(e, s, t, ctx, n - 1);
    }
  }

  /** Once an index is loaded, an IRS or OIS is worth the same whatever the spreads of its float legs. */
  lemma IndexedSpreadIgnored(e: Engine, s: Swap, t: Swap, ctx: Context)
    requires ValidSwap(s) && ValidSwap(t) && SpreadsDiffer(s, t) && (s.kind.IRS? || s.kind.OIS?) && ctx.index.Some?
    ensures Npv(e, t, ctx) == Npv(e, s, ctx)
  {
    forall i | 0 <= i < |s.legs|
      ensures LegPV(e, t, ctx, i) == LegPV(e, s, ctx, i)
    {
      IndexedLeg(e, s, t, ctx, i);
    }
    assert ReportingCcy(t, ctx) == ReportingCcy(s, ctx);
    hide LegPV, ReportingCcy;
    SameNpvOf(e, s, t, ctx, |s.legs|);
  }

  // ----- Where the spread counts -----

  /** The strategy adds the spread to the leg's coupons. */
  predicate Counts(kind: SwapType, ctx: Context) {
    match kind
    case IRS => ctx.index.None?
    case OIS => ctx.index.None?
    case BASIS => true
    case XCCY => true
    case CDS => false
  }

  lemma ForwardMoves(notional: real, forward: real, a: real, b: real, dayCount: DayCount, start: Date, end: Date)
    ensures ForwardAmount(notional, forward, b, YearFraction(start, end, dayCount))
            == ForwardAmount(notional, forward, a, YearFraction(start, end, dayCount))
               + Coupon(b - a, notional, dayCount, start, end).amount
  {
    hide YearFraction;
    var f := YearFraction(start, end, dayCount);
    assert notional * (forward + b) == notional * (forward + a) + notional * (b - a);
    SumTimes(notional * (forward + b), notional * (forward + a), notional * (b - a), f);
  }

  lemma AddedMoves(notional: real, a: real, b: real, dayCount: DayCount, start: Date, end: Date)
    ensures SpreadAmount(b, notional, YearFraction(start, end, dayCount))
            == SpreadAmount(a, notional, YearFraction(start, end, dayCount))
               + Coupon(b - a, notional, dayCount, start, end).amount
  {
    hide YearFraction;
    assert b * notional == a * notional + notional * (b - a);
    SumTimes(b * notional, a * notional, notional * (b - a), YearFraction(start, end, dayCount));
  }

  lemma SumTimes(x: real, y: real, z: real, f: real)
    requires x == y + z
    ensures x * f == y * f + z * f
  {
  }

  function WithSpread(t: Terms, spread: real): Terms
    requires !t.FixedTerms?
  {
    if t.ForwardTerms? then t.(spread := spread) else t.(addedSpread := Some(spread))
  }

  /** The terms carry this spread. */
  predicate Carries(t: Terms, spread: real) {
    (t.ForwardTerms? && t.spread == spread) || (t.CompoundedTerms? && t.addedSpread == Some(spread))
  }

  lemma CouponMoves(e: Engine, t: Terms, a: real, b: real, start: Date, end: Date)
    requires Carries(t, a)
    ensures CouponAmount(e, WithSpread(t, b), start, end)
            == CouponAmount(e, t, start, end) + CouponAmount(e, FixedTerms(t.notional, t.dayCount, b - a), start, end)
  {
    hide YearFraction, DayNumber, MidTenor, ForwardOf, C.Coupon, ForwardAmount, SpreadAmount, Coupon;
    if t.ForwardTerms? {
      ForwardMoves(t.notional, e.zero(t.curve, MidTenor(t.curve, DayNumber(start), DayNumber(end))), a, b, t.dayCount,
                   start, end);
    } else {
      AddedMoves(t.notional, a, b, t.dayCount, start, end);
    }
  }

  /** `a` pays what `b` and `c` pay together, on the same days. */
  ghost predicate SumOf(a: seq<Entry>, b: seq<Entry>, c: seq<Entry>) {
    && |a| == |b| == |c|
    && forall i :: 0 <= i < |a| ==> a[i].date == b[i].date == c[i].date && a[i].amount == b[i].amount + c[i].amount
  }

  lemma DiscountedAdds(e: Engine, a: Entry, b: Entry, c: Entry, curve: Curve, cutoff: int)
    requires a.date == b.date == c.date && a.amount == b.amount + c.amount
    ensures Discounted(e, a, curve, cutoff) == Discounted(e, b, curve, cutoff) + Discounted(e, c, curve, cutoff)
  {
    SumTimes(a.amount, b.amount, c.amount, e.df(curve, a.date - curve.asOf));
  }

  lemma {:induction false} SumIsWorthSum(e: Engine, a: seq<Entry>, b: seq<Entry>, c: seq<Entry>, curve: Curve,
                                         cutoff: int)
    requires SumOf(a, b, c)
    ensures PresentValue(e, a, curve, cutoff) == PresentValue(e, b, curve, cutoff) + PresentValue(e, c, curve, cutoff)
  {
    hide Discounted;
    if a != [] {
      var n := |a| - 1;
      SumIsWorthSum(e, a[..n], b[..n], c[..n], curve, cutoff);
      DiscountedAdds(e, a[n], b[n], c[n], curve, cutoff);
    }
  }

  lemma CouponsMove(e: Engine, t: Terms, a: real, b: real, s: Schedule)
    requires ValidSchedule(s) && Carries(t, a)
    ensures SumOf(Coupons(e, WithSpread(t, b), s), Coupons(e, t, s),
                  Coupons(e, FixedTerms(t.notional, t.dayCount, b - a), s))
  {
    forall start, end
      ensures CouponAmount(e, WithSpread(t, b), start, end)
              == CouponAmount(e, t, start, end) + CouponAmount(e, FixedTerms(t.notional, t.dayCount, b - a), start, end)
    {
      CouponMoves(e, t, a, b, start, end);
    }
    hide ScheduleDates, CouponAmount, ValidSchedule, Carries, WithSpread;
  }

  /** What a fixed leg on the float leg's terms would be worth at this rate. */
  function FixedWorth(e: Engine, l: Leg, rate: real, curve: Curve, cutoff: int): real
    requires l.Float? && ValidLeg(l)
  {
    PresentValue(e, Coupons(e, FixedTerms(l.notional, l.dayCount, rate), l.schedule), curve, cutoff)
  }

  lemma CouponsFollow(e: Engine, kind: SwapType, l: Leg, spread: real, ctx: Context, i: nat)
    requires l.Float? && ValidLeg(l) && Counts(kind, ctx)
    ensures ValidLeg(l.(spread := spread))
    ensures SumOf(LegCoupons(e, kind, l.(spread := spread), ctx, i), LegCoupons(e, kind, l, ctx, i),
                  Coupons(e, FixedTerms(l.notional, l.dayCount, spread - l.spread), l.schedule))
  {
    TermsMove(kind, l, spread, ctx, i);
    hide LegTerms, Coupons, Counts, Carries, WithSpread, SumOf, ValidSchedule, ScheduleDates;
    CouponsMove(e, LegTerms(kind, l, ctx, i).value, l.spread, spread, l.schedule);
  }

  lemma CouponsStay(e: Engine, kind: SwapType, l: Leg, spread: real, ctx: Context, i: nat)
    requires l.Float? && ValidLeg(l) && !Counts(kind, ctx)
    ensures ValidLeg(l.(spread := spread))
    ensures LegCoupons(e, kind, l.(spread := spread), ctx, i) == LegCoupons(e, kind, l, ctx, i)
  {
    TermsMove(kind, l, spread, ctx, i);
    hide LegTerms, Coupons, Counts, ValidSchedule;
  }

  /** Where it counts, a changed spread is worth exactly a fixed leg at the difference; where it does not, nothing. */
  lemma SpreadWorth(e: Engine, kind: SwapType, l: Leg, spread: real, ctx: Context, i: nat, curve: Curve, cutoff: int)
    requires l.Float? && ValidLeg(l)
    ensures ValidLeg(l.(spread := spread))
    ensures PresentValue(e, LegCoupons(e, kind, l.(spread := spread), ctx, i), curve, cutoff)
            == PresentValue(e, LegCoupons(e, kind, l, ctx, i), curve, cutoff)
               + if Counts(kind, ctx) then FixedWorth(e, l, spread - l.spread, curve, cutoff) else 0.0
  {
    hide LegCoupons, Coupons, PresentValue, Counts, SumOf;
    if Counts(kind, ctx) {
      CouponsFollow(e, kind, l, spread, ctx, i);
      SumIsWorthSum(e, LegCoupons(e, kind, l.(spread := spread), ctx, i), LegCoupons(e, kind, l, ctx, i),
                    Coupons(e, FixedTerms(l.notional, l.dayCount, spread - l.spread), l.schedule), curve, cutoff);
    } else {
      CouponsStay(e, kind, l, spread, ctx, i);
    }
  }

  lemma TermsMove(kind: SwapType, l: Leg, spread: real, ctx: Context, i: nat)
    requires l.Float?
    ensures var t, u := LegTerms(kind, l, ctx, i), LegTerms(kind, l.(spread := spread), ctx, i);
            if Counts(kind, ctx) then
              t.Some? && Carries(t.value, l.spread) && u == Some(WithSpread(t.value, spread))
              && t.value.notional == l.notional && t.value.dayCount == l.dayCount
            else u == t
  {
    hide ResolveProjection, LegIndex;
  }

  // ----- A swap without an index -----

  function Floater(spread: real): Swap {
    Swap(IRS, [Float(Receive, "USD", 100.0, "SOFR", spread, Act365, Valuation.YEAR)], 365)
  }

  lemma FloaterLeg(spread: real)
    ensures ValidSwap(Floater(spread))
    ensures LegPV(Valuation.LINEAR, Floater(spread), Valuation.TODAY, 0) == Some(100.0 * spread)
  {
    Valuation.YearDates();
    Valuation.OneYear();
    hide ScheduleDates, DayNumber, YearFraction, Valid;
    var l := Floater(spread).legs[0];
    var coupons := LegCoupons(Valuation.LINEAR, IRS, l, Valuation.TODAY, 0);
    assert coupons == [Entry(365, 100.0 * (0.0 + spread) * 1.0, None)] && coupons[..0] == [];
    assert DiscountFactor(Valuation.FLAT, 365) == 1.0;
    assert PresentValue(Valuation.LINEAR, coupons, Valuation.FLAT, 0) == 100.0 * spread;
    hide LegCoupons, PresentValue;
    assert LegLocalPV(Valuation.LINEAR, Floater(spread), Valuation.TODAY, 0) == Some(100.0 * spread);
  }

  /** Without an index a spread of 1% on a year's IRS is worth 1 on a notional of 100. */
  lemma SpreadCountsWithoutIndex()
    ensures Valuation.TODAY.index.None? && ValidSwap(Floater(0.0)) && ValidSwap(Floater(0.01))
    ensures Npv(Valuation.LINEAR, Floater(0.0), Valuation.TODAY) == Some(0.0)
    ensures Npv(Valuation.LINEAR, Floater(0.01), Valuation.TODAY) == Some(1.0)
  {
    FloaterLeg(0.0);
    FloaterLeg(0.01);
    hide LegPV;
    assert NpvOf(Valuation.LINEAR, Floater(0.0), Valuation.TODAY, 1) == Some(0.0);
    assert NpvOf(Valuation.LINEAR, Floater(0.01), Valuation.TODAY, 1) == Some(1.0);
  }
}
