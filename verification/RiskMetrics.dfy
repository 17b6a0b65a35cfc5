/** How the figures of a valuation answer to the size and the side of a swap. */
module RiskMetrics {
  import opened Directions
  import opened Numbers
  import opened Options
  import opened Pricing
  import opened Linearity
  import opened Bumps
  import opened Valuation
  import Schedules

  ghost predicate ScaledValues(a: seq<real>, b: seq<real>, k: real) {
    |a| == |b| && forall i :: 0 <= i < |a| ==> a[i] == Scale(k, b[i])
  }

  lemma {:induction false} LegPVsFollow(e: Engine, s: Swap, t: Swap, ctx: Context, n: nat, k: real)
    requires ValidSwap(s) && ValidSwap(t) && n <= |s.legs| == |t.legs|
    requires forall i :: 0 <= i < n ==> LegPV(e, t, ctx, i) == ScaleOption(LegPV(e, s, ctx, i), k)
    ensures var a, b := LegPVs(e, t, ctx, n), LegPVs(e, s, ctx, n);
            a.Some? == b.Some? && (b.Some? ==> ScaledValues(a.value, b.value, k))
  {
    hide LegPV, Scale;
    if n > 0 {
      LegPVsFollow(e, s, t, ctx, n - 1, k);
    }
  }

  lemma {:induction false} SumScales(a: seq<real>, b: seq<real>, k: real, skip: int)
    requires ScaledValues(a, b, k)
    ensures Sum(a) == Scale(k, Sum(b)) && SumExcept(a, skip) == Scale(k, SumExcept(b, skip))
  {
    assert Scale(k, 0.0) == 0.0;
    hide Scale;
    if a != [] {
      var n := |a| - 1;
      SumScales(a[..n], b[..n], k, skip);
      Distribute(k, Sum(b[..n]), b[n]);
      Distribute(k, SumExcept(b[..n], skip), if n == skip then 0.0 else b[n]);
    }
  }

  // ----- Quotients -----

  lemma QuotientScales(k: real, a: real, b: real)
    requires k != 0.0 && b != 0.0
    ensures Scale(k, b) != 0.0 && Scale(k, a) / Scale(k, b) == a / b
  {
    assert (a / b) * Scale(k, b) == Scale(k, (a / b) * b) == Scale(k, a);
  }

  lemma DividedScale(k: real, a: real, b: real)
    requires b != 0.0
    ensures Scale(k, a) / b == Scale(k, a / b)
  {
    assert Scale(k, a / b) * b == Scale(k, (a / b) * b);
  }

  lemma PositiveScale(k: real, x: real)
    requires k > 0.0
    ensures Scale(k, x) > 0.0 <==> x > 0.0
    ensures Abs(Scale(k, x)) == Scale(k, Abs(x))
  {
    if x > 0.0 {
      assert k * x > 0.0;
    } else if x < 0.0 {
      assert k * -x > 0.0;
    }
  }

  lemma Differences(k: real, up: real, down: real, npv: real)
    ensures Scale(k, up) - Scale(k, down) == Scale(k, up - down)
    ensures Scale(k, up) + Scale(k, down) - 2.0 * Scale(k, npv) == Scale(k, up + down - 2.0 * npv)
  {
  }

  /** Duration is a ratio: the size cancels. */
  lemma DurationKeeps(k: real, up: real, down: real, refN: real)
    requires k > 0.0
    ensures ModDuration(Scale(k, up), Scale(k, down), Scale(k, refN)) == ModDuration(up, down, refN)
  {
    Differences(k, up, down, 0.0);
    PositiveScale(k, refN);
    if refN > 0.0 {
      var slope := (up - down) / (2.0 * BP);
      DividedScale(k, up - down, 2.0 * BP);
      assert -Scale(k, slope) == Scale(k, -slope);
      hide Scale;
      QuotientScales(k, -slope, refN);
    }
  }

  /** So is convexity. */
  lemma ConvexityKeeps(k: real, up: real, down: real, npv: real, refN: real)
    requires k > 0.0
    ensures Convexity(Scale(k, up), Scale(k, down), Scale(k, npv), Scale(k, refN)) == Convexity(up, down, npv, refN)
  {
    Differences(k, up, down, npv);
    PositiveScale(k, refN);
    if refN > 0.0 {
      assert Scale(k, refN) * BP * BP == Scale(k, refN * BP * BP);
      hide Scale;
      QuotientScales(k, up + down - 2.0 * npv, refN * BP * BP);
    }
  }

  lemma Dv01Scales(k: real, up: real, down: real)
    requires k > 0.0
    ensures AbsDv01(Scale(k, up), Scale(k, down)) == Scale(k, AbsDv01(up, down))
  {
    Differences(k, up, down, 0.0);
    PositiveScale(k, up - down);
    DividedScale(k, Abs(up - down), 2.0);
    hide Scale, Abs;
  }

  /** The par rate is the same for every multiple of the legs' values, negative ones included. */
  lemma ParRateKeeps(legs: seq<Leg>, legs': seq<Leg>, pvs: seq<real>, pvs': seq<real>, k: real)
    requires |legs| == |legs'| == |pvs| && ScaledValues(pvs', pvs, k) && k != 0.0
    requires FirstFixed(legs', 0) == FirstFixed(legs, 0)
    requires forall i :: 0 <= i < |legs| && legs[i].Fixed? ==> legs'[i].Fixed? && legs'[i].rate == legs[i].rate
    ensures ParRate(legs', pvs') == ParRate(legs, pvs)
  {
    hide Scale, SumExcept, FirstFixed;
    var j := FirstFixed(legs, 0);
    if j.Some? && legs[j.value].rate != 0.0 {
      var rate := legs[j.value].rate;
      SumScales(pvs', pvs, k, j.value);
      var annuity, others := pvs[j.value] / rate, SumExcept(pvs, j.value);
      DividedScale(k, pvs[j.value], rate);
      ParQuotient(k, others, annuity);
    }
  }

  lemma ParQuotient(k: real, others: real, annuity: real)
    requires k != 0.0
    ensures Scale(k, annuity) == 0.0 <==> annuity == 0.0
    ensures annuity != 0.0 ==> -Scale(k, others) / Scale(k, annuity) == -others / annuity
  {
    if annuity != 0.0 {
      assert -Scale(k, others) == Scale(k, -others);
      QuotientScales(k, -others, annuity);
    }
  }

  // ----- Size -----

  lemma {:induction false} FirstsScaled(legs: seq<Leg>, legs': seq<Leg>, i: nat, k: real)
    requires k > 0.0 && i <= |legs| == |legs'| && forall j :: 0 <= j < |legs| ==> legs'[j] == ScaleLeg(legs[j], k)
    ensures FirstFixed(legs', i) == FirstFixed(legs, i) && FirstPositive(legs', i) == FirstPositive(legs, i)
    decreases |legs| - i
  {
    hide Scale;
    if i < |legs| {
      PositiveScale(k, legs[i].notional);
      FirstsScaled(legs, legs', i + 1, k);
    }
  }

  lemma ReferenceScales(s: Swap, ctx: Context, k: real)
    requires k > 0.0
    ensures ReferenceNotional(ScaleSwap(s, k), ctx) == ScaleOption(ReferenceNotional(s, ctx), k)
  {
    var t := ScaleSwap(s, k);
    assert Scale(k, 0.0) == 0.0;
    FirstsScaled(s.legs, t.legs, 0, k);
    hide FirstFixed, FirstPositive, Scale, FxFactor;
    var i := ReferenceLeg(s.legs);
    if i.Some? {
      var l := s.legs[i.value];
      assert t.legs[i.value] == ScaleLeg(l, k);
      var factor := ReferenceFactor(s, ctx, l);
      assert ReferenceFactor(t, ctx, ScaleLeg(l, k)) == factor;
      hide ReferenceFactor, Converted;
      if factor.Some? {
        ConvertedScales(k, l.notional, factor.value);
      }
    }
  }

  lemma ConvertedScales(k: real, notional: real, factor: real)
    requires k > 0.0
    ensures Converted(Scale(k, notional), factor) == Scale(k, Converted(notional, factor))
  {
    PositiveScale(k, notional);
    Assoc(k, Abs(notional), factor);
  }

  /** The figures of `r` for k times the swap that `q` values. */
  ghost predicate ResultScaled(r: Result, q: Result, k: real) {
    && r.npv == Scale(k, q.npv) && ScaledValues(r.legPVs, q.legPVs, k) && r.dv01 == Scale(k, q.dv01)
    && r.parRate == q.parRate && r.modDuration == q.modDuration && r.convexity == q.convexity
  }

  /** k times the swap: values and DV01 scale, par rate, duration and convexity do not depend on size. */
  lemma PriceScales(e: Engine, s: Swap, ctx: Context, k: real)
    requires ValidSwap(s) && k > 0.0
    ensures var r, q := Price(e, ScaleSwap(s, k), ctx), Price(e, s, ctx);
            r.Some? == q.Some? && (q.Some? ==> ResultScaled(r.value, q.value, k))
  {
    var t := ScaleSwap(s, k);
    forall i | 0 <= i < |s.legs|
      ensures LegPV(e, t, ctx, i) == ScaleOption(LegPV(e, s, ctx, i), k)
    {
      LegPVScales(e, s, ctx, i, k);
    }
    LegPVsFollow(e, s, t, ctx, |s.legs|, k);
    FirstsScaled(s.legs, t.legs, 0, k);
    ReferenceScales(s, ctx, k);
    NpvScales(e, s, BumpParallel(ctx, BP), k);
    NpvScales(e, s, BumpParallel(ctx, -BP), k);
    assert ReportingCcy(t, ctx) == ReportingCcy(s, ctx);
    FromParts(e, s, t, ctx, k);
  }

  lemma FromParts(e: Engine, s: Swap, t: Swap, ctx: Context, k: real)
    requires ValidSwap(s) && ValidSwap(t) && k > 0.0 && |t.legs| == |s.legs|
    requires ReportingCcy(t, ctx).Some? == ReportingCcy(s, ctx).Some?
    requires var a, b := LegPVs(e, t, ctx, |t.legs|), LegPVs(e, s, ctx, |s.legs|);
             a.Some? == b.Some? && (b.Some? ==> ScaledValues(a.value, b.value, k))
    requires FirstFixed(t.legs, 0) == FirstFixed(s.legs, 0)
    requires forall i :: 0 <= i < |s.legs| && s.legs[i].Fixed? ==> t.legs[i].Fixed? && t.legs[i].rate == s.legs[i].rate
    requires ReferenceNotional(t, ctx) == ScaleOption(ReferenceNotional(s, ctx), k)
    requires Npv(e, t, BumpParallel(ctx, BP)) == ScaleOption(Npv(e, s, BumpParallel(ctx, BP)), k)
    requires Npv(e, t, BumpParallel(ctx, -BP)) == ScaleOption(Npv(e, s, BumpParallel(ctx, -BP)), k)
    ensures var r, q := Price(e, t, ctx), Price(e, s, ctx);
            r.Some? == q.Some? && (q.Some? ==> ResultScaled(r.value, q.value, k))
  {
    hide Npv, BumpParallel, LegPVs, ReferenceNotional, Scale, ModDuration, Convexity, AbsDv01, ParRate, Sum, FirstFixed,
        ScaledValues, ReportingCcy;
    if Price(e, s, ctx).Some? {
      var a, b := LegPVs(e, t, ctx, |t.legs|).value, LegPVs(e, s, ctx, |s.legs|).value;
      SumScales(a, b, k, 0);
      ParRateKeeps(s.legs, t.legs, b, a, k);
      var up, down, refN := Npv(e, s, BumpParallel(ctx, BP)).value, Npv(e, s, BumpParallel(ctx, -BP)).value,
          ReferenceNotional(s, ctx).value;
      DurationKeeps(k, up, down, refN);
      ConvexityKeeps(k, up, down, Sum(b), refN);
      Dv01Scales(k, up, down);
    }
  }

  // ----- Side -----

  lemma RatiosFlip(up: real, down: real, npv: real, refN: real)
    ensures ModDuration(Scale(-1.0, up), Scale(-1.0, down), refN) == ScaleOption(ModDuration(up, down, refN), -1.0)
    ensures Convexity(Scale(-1.0, up), Scale(-1.0, down), Scale(-1.0, npv), refN)
        == ScaleOption(Convexity(up, down, npv, refN), -1.0)
    ensures AbsDv01(Scale(-1.0, up), Scale(-1.0, down)) == AbsDv01(up, down)
  {
    Differences(-1.0, up, down, npv);
    if refN > 0.0 {
      var slope := (up - down) / (2.0 * BP);
      DividedScale(-1.0, up - down, 2.0 * BP);
      assert -Scale(-1.0, slope) == Scale(-1.0, -slope);
      hide Scale;
      DividedScale(-1.0, -slope, refN);
      DividedScale(-1.0, up + down - 2.0 * npv, refN * BP * BP);
    }
  }

  lemma {:induction false} FirstsFlipped(legs: seq<Leg>, legs': seq<Leg>, i: nat)
    requires i <= |legs| == |legs'|
    requires forall j :: 0 <= j < |legs| ==> legs'[j] == legs[j].(direction := Opposite(legs[j].direction))
    ensures FirstFixed(legs', i) == FirstFixed(legs, i) && FirstPositive(legs', i) == FirstPositive(legs, i)
    decreases |legs| - i
  {
    hide Opposite;
    if i < |legs| {
      FirstsFlipped(legs, legs', i + 1);
    }
  }

  lemma ReferenceFlips(s: Swap, ctx: Context)
    ensures ReferenceNotional(FlipSwap(s), ctx) == ReferenceNotional(s, ctx)
  {
    var t := FlipSwap(s);
    FirstsFlipped(s.legs, t.legs, 0);
    hide FirstFixed, FirstPositive, FxFactor, Converted, Opposite;
  }

  ghost predicate ResultFlipped(r: Result, q: Result) {
    && r.npv == Scale(-1.0, q.npv)
    && ScaledValues(r.legPVs, q.legPVs, -1.0)
    && r.dv01 == q.dv01
    && r.parRate == q.parRate
    && r.modDuration == ScaleOption(q.modDuration, -1.0) && r.convexity == ScaleOption(q.convexity, -1.0)
  }

  /** The other side of the swap: values, duration and convexity change sign, DV01 and par rate do not. */
  lemma PriceFlips(e: Engine, s: Swap, ctx: Context)
    requires ValidSwap(s)
    ensures var r, q := Price(e, FlipSwap(s), ctx), Price(e, s, ctx);
            r.Some? == q.Some? && (q.Some? ==> ResultFlipped(r.value, q.value))
  {
    var t := FlipSwap(s);
    forall i | 0 <= i < |s.legs|
      ensures LegPV(e, t, ctx, i) == ScaleOption(LegPV(e, s, ctx, i), -1.0)
    {
      LegPVFlips(e, s, ctx, i);
    }
    LegPVsFollow(e, s, t, ctx, |s.legs|, -1.0);
    FirstsFlipped(s.legs, t.legs, 0);
    ReferenceFlips(s, ctx);
    FlipNegates(e, s, BumpParallel(ctx, BP));
    FlipNegates(e, s, BumpParallel(ctx, -BP));
    FlipKeepsCurrencies(s, ctx);
    FlippedFromParts(e, s, t, ctx);
  }

  lemma FlippedFromParts(e: Engine, s: Swap, t: Swap, ctx: Context)
    requires ValidSwap(s) && ValidSwap(t) && |t.legs| == |s.legs|
    requires ReportingCcy(t, ctx).Some? == ReportingCcy(s, ctx).Some?
    requires var a, b := LegPVs(e, t, ctx, |t.legs|), LegPVs(e, s, ctx, |s.legs|);
             a.Some? == b.Some? && (b.Some? ==> ScaledValues(a.value, b.value, -1.0))
    requires FirstFixed(t.legs, 0) == FirstFixed(s.legs, 0)
    requires forall i :: 0 <= i < |s.legs| && s.legs[i].Fixed? ==> t.legs[i].Fixed? && t.legs[i].rate == s.legs[i].rate
    requires ReferenceNotional(t, ctx) == ReferenceNotional(s, ctx)
    requires Npv(e, t, BumpParallel(ctx, BP)) == ScaleOption(Npv(e, s, BumpParallel(ctx, BP)), -1.0)
    requires Npv(e, t, BumpParallel(ctx, -BP)) == ScaleOption(Npv(e, s, BumpParallel(ctx, -BP)), -1.0)
    ensures var r, q := Price(e, t, ctx), Price(e, s, ctx);
            r.Some? == q.Some? && (q.Some? ==> ResultFlipped(r.value, q.value))
  {
    hide Npv, BumpParallel, LegPVs, ReferenceNotional, Scale, ModDuration, Convexity, AbsDv01, ParRate, Sum, FirstFixed,
        ScaledValues, ReportingCcy;
    if Price(e, s, ctx).Some? {
      var a, b := LegPVs(e, t, ctx, |t.legs|).value, LegPVs(e, s, ctx, |s.legs|).value;
      SumScales(a, b, -1.0, 0);
      ParRateKeeps(s.legs, t.legs, b, a, -1.0);
      var up, down := Npv(e, s, BumpParallel(ctx, BP)).value, Npv(e, s, BumpParallel(ctx, -BP)).value;
      RatiosFlip(up, down, Sum(b), ReferenceNotional(s, ctx).value);
    }
  }

  // ----- The currency of the reference notional -----

  /** The context with the reporting currency that pricing defaults to spelled out. */
  function Named(s: Swap, ctx: Context): Context { ctx.(reportingCcy := ReportingCcy(s, ctx)) }

  /** The quote that conversion uses is 1. */
  predicate QuotedAtOne(from: string, to: string, spots: map<string, real>) {
    if from + to in spots && spots[from + to] != 0.0 then spots[from + to] == 1.0
    else to + from in spots && spots[to + from] == 1.0
  }

  lemma UnitFactorIff(from: string, to: string, spots: map<string, real>)
    ensures FxFactor(from, to, spots) == Some(1.0) <==> from == to || QuotedAtOne(from, to, spots)
  {
    if to + from in spots && spots[to + from] != 0.0 {
      UnitInverse(spots[to + from]);
    }
  }

  lemma UnitInverse(x: real)
    requires x != 0.0
    ensures 1.0 / x == 1.0 <==> x == 1.0
  {
    assert 1.0 / x * x == 1.0;
  }

  /**
   Without a reporting currency the reference leg is left in its own, which agrees with its value's only at a factor of
   1.
   */
  lemma ReferenceFactorIff(s: Swap, ctx: Context, j: nat)
    requires s.kind.XCCY? && ctx.reportingCcy.None? && j < |s.legs|
    ensures var reporting := ReportingCcy(s, ctx).value;
            var own := GetOr(LegCurrency(s.legs[j]), reporting);
            && ReferenceFactor(s, ctx, s.legs[j]) == Some(1.0)
            && (ReferenceFactor(s, ctx, s.legs[j]) == LegFactor(s, ctx, j)
                <==> own == reporting || QuotedAtOne(own, reporting, ctx.fxSpots))
  {
    var reporting := ReportingCcy(s, ctx).value;
    var l := s.legs[j];
    SameCurrencyConverts(ctx, GetOr(LegCurrency(l), "USD"));
    UnitFactorIff(GetOr(LegCurrency(l), reporting), reporting, ctx.fxSpots);
    hide FxFactor, QuotedAtOne;
  }

  lemma NamedCurrency(s: Swap, ctx: Context)
    ensures ReportingCcy(s, Named(s, ctx)) == ReportingCcy(s, ctx)
  {
  }

  lemma NamedCoupons(e: Engine, kind: SwapType, l: Leg, ctx: Context, named: Context, i: nat)
    requires ValidLeg(l) && named == ctx.(reportingCcy := named.reportingCcy)
    ensures LegCoupons(e, kind, l, named, i) == LegCoupons(e, kind, l, ctx, i)
  {
    assert LegTerms(kind, l, named, i) == LegTerms(kind, l, ctx, i);
    hide LegTerms, Coupons;
  }

  lemma NamedCashflows(e: Engine, s: Swap, ctx: Context, named: Context, i: nat)
    requires ValidSwap(s) && i < |s.legs| && named == ctx.(reportingCcy := named.reportingCcy)
    ensures LegCashflows(e, s, named, i) == LegCashflows(e, s, ctx, i)
  {
    LegIsValid(s, i);
    NamedCoupons(e, s.kind, s.legs[i], ctx, named, i);
    NamedSurvival(e, ctx, named, LegCoupons(e, s.kind, s.legs[i], ctx, i), s.maturityDate);
    hide LegCoupons, XccyCashflows, ProtectionAmount, SurvivalWeighted, DefaultProbability, ValidSwap, ValidLeg;
    assert forall ccy :: PairOf(named, ccy) == PairOf(ctx, ccy);
    hide PairOf;
  }

  lemma NamedSurvival(e: Engine, ctx: Context, named: Context, cfs: seq<Entry>, maturity: int)
    requires named == ctx.(reportingCcy := named.reportingCcy)
    ensures SurvivalWeighted(e, named, cfs) == SurvivalWeighted(e, ctx, cfs)
    ensures DefaultProbability(e, named, maturity) == DefaultProbability(e, ctx, maturity)
  {
    assert Hazard(named) == Hazard(ctx);
    hide Hazard, Decay;
    assert forall date :: Survival(e, named, date) == Survival(e, ctx, date);
  }

  lemma NamedLocal(e: Engine, s: Swap, ctx: Context, named: Context, i: nat)
    requires ValidSwap(s) && i < |s.legs| && named == ctx.(reportingCcy := named.reportingCcy)
    ensures LegLocalPV(e, s, named, i) == LegLocalPV(e, s, ctx, i)
  {
    NamedCashflows(e, s, ctx, named, i);
    assert forall cfs :: LegDiscount(s.kind, cfs, named) == LegDiscount(s.kind, cfs, ctx);
    hide LegCashflows, LegDiscount, ValueOn, ValidSwap;
  }

  lemma NamedLeg(e: Engine, s: Swap, ctx: Context, i: nat)
    requires ValidSwap(s) && i < |s.legs|
    ensures LegPV(e, s, Named(s, ctx), i) == LegPV(e, s, ctx, i)
  {
    NamedCurrency(s, ctx);
    NamedLocal(e, s, ctx, Named(s, ctx), i);
    hide LegLocalPV, ReportingCcy, FxFactor, Signed, ValidSwap;
  }

  lemma {:induction false} SameLegPVs(e: Engine, s: Swap, a: Context, b: Context, n: nat)
    requires ValidSwap(s) && n <= |s.legs| && forall i :: 0 <= i < n ==> LegPV(e, s, a, i) == LegPV(e, s, b, i)
    ensures LegPVs(e, s, a, n) == LegPVs(e, s, b, n) && NpvOf(e, s, a, n) == NpvOf(e, s, b, n)
  {
    hide LegPV;
    if n > 0 {
      SameLegPVs(e, s, a, b, n - 1);
    }
  }

  lemma NamedValues(e: Engine, s: Swap, ctx: Context)
    requires ValidSwap(s) && s.legs != []
    ensures LegPVs(e, s, Named(s, ctx), |s.legs|) == LegPVs(e, s, ctx, |s.legs|)
    ensures Npv(e, s, Named(s, ctx)) == Npv(e, s, ctx)
    ensures ReportingCcy(s, Named(s, ctx)) == ReportingCcy(s, ctx)
  {
    forall i | 0 <= i < |s.legs|
      ensures LegPV(e, s, Named(s, ctx), i) == LegPV(e, s, ctx, i)
    {
      NamedLeg(e, s, ctx, i);
    }
    NamedCurrency(s, ctx);
    hide LegPV, Named, ReportingCcy;
    SameLegPVs(e, s, Named(s, ctx), ctx, |s.legs|);
  }

  lemma NamedBumps(s: Swap, ctx: Context, bp: real)
    ensures BumpParallel(Named(s, ctx), bp) == Named(s, BumpParallel(ctx, bp))
  {
    hide ShiftAll, ShiftBook;
    assert ReportingCcy(s, BumpParallel(ctx, bp)) == ReportingCcy(s, ctx);
  }

  lemma NamedReference(s: Swap, ctx: Context)
    requires s.kind.XCCY? && ctx.reportingCcy.None? && ReferenceLeg(s.legs).Some?
    requires LegFactor(s, ctx, ReferenceLeg(s.legs).value).Some?
    ensures var j := ReferenceLeg(s.legs).value;
            && ReferenceNotional(s, ctx) == Some(Converted(s.legs[j].notional, 1.0))
            && ReferenceNotional(s, Named(s, ctx)) == Some(Converted(s.legs[j].notional, LegFactor(s, ctx, j).value))
  {
    var j := ReferenceLeg(s.legs).value;
    ReferenceFactorIff(s, ctx, j);
    NamedCurrency(s, ctx);
    hide FxFactor, ReferenceLeg, Converted;
    assert ReferenceFactor(s, Named(s, ctx), s.legs[j]) == LegFactor(s, ctx, j);
  }

  lemma DurationConverts(up: real, down: real, notional: real, factor: real)
    requires ModDuration(up, down, Converted(notional, 1.0)).Some?
    requires ModDuration(up, down, Converted(notional, factor)).Some?
    ensures ModDuration(up, down, Converted(notional, 1.0)).value
            == factor * ModDuration(up, down, Converted(notional, factor)).value
  {
    var slope, n := -((up - down) / (2.0 * BP)), Abs(notional);
    assert n * 1.0 == n && n * factor > 0.0;
    hide Abs;
    QuotientOfProduct(slope, n, factor);
  }

  lemma ConvexityConverts(up: real, down: real, npv: real, notional: real, factor: real)
    requires Convexity(up, down, npv, Converted(notional, 1.0)).Some?
    requires Convexity(up, down, npv, Converted(notional, factor)).Some?
    ensures Convexity(up, down, npv, Converted(notional, 1.0)).value
            == factor * Convexity(up, down, npv, Converted(notional, factor)).value
  {
    var bend, n := up + down - 2.0 * npv, Abs(notional);
    assert n * 1.0 == n && n * factor > 0.0;
    hide Abs;
    assert (n * BP * BP) * factor == (n * factor) * BP * BP;
    QuotientOfProduct(bend, n * BP * BP, factor);
  }

  lemma QuotientOfProduct(slope: real, n: real, factor: real)
    requires n > 0.0 && n * factor > 0.0
    ensures slope / n == factor * (slope / (n * factor))
  {
    var q := slope / (n * factor);
    assert q * (n * factor) == slope;
    assert (factor * q) * n == q * (n * factor);
    assert slope / n * n == slope;
  }

  /** The same values, with duration and convexity divided by the factor. */
  predicate SameButDivided(q: Result, r: Result, factor: real) {
    && r.npv == q.npv
    && r.legPVs == q.legPVs
    && r.dv01 == q.dv01
    && r.parRate == q.parRate
    && (q.modDuration.Some? && r.modDuration.Some? ==> q.modDuration.value == factor * r.modDuration.value)
    && (q.convexity.Some? && r.convexity.Some? ==> q.convexity.value == factor * r.convexity.value)
  }

  /**
   Spelling out the default reporting currency changes no value of a cross-currency swap, but divides its
   duration and convexity by the reference leg's conversion factor.
   */
  lemma DefaultedReporting(e: Engine, s: Swap, ctx: Context)
    requires ValidSwap(s) && s.kind.XCCY? && ctx.reportingCcy.None? && Price(e, s, ctx).Some?
    requires ReferenceLeg(s.legs).Some?
    ensures Price(e, s, Named(s, ctx)).Some? && LegFactor(s, ctx, ReferenceLeg(s.legs).value).Some?
    ensures SameButDivided(Price(e, s, ctx).value, Price(e, s, Named(s, ctx)).value,
                           LegFactor(s, ctx, ReferenceLeg(s.legs).value).value)
  {
    var j := ReferenceLeg(s.legs).value;
    hide *;
    PriceIsNpv(e, s, ctx);
    PricesIff(e, s, ctx);
    FactorOf(s, ctx, j);
    NamedValues(e, s, ctx);
    NamedBumps(s, ctx, BP);
    NamedBumps(s, ctx, -BP);
    NamedValues(e, s, BumpParallel(ctx, BP));
    NamedValues(e, s, BumpParallel(ctx, -BP));
    NamedReference(s, ctx);
    DefaultedParts(e, s, ctx, Named(s, ctx), s.legs[j].notional, LegFactor(s, ctx, j).value);
  }

  lemma FactorOf(s: Swap, ctx: Context, j: nat)
    requires s.kind.XCCY? && Priceable(s, ctx) && j < |s.legs|
    ensures LegFactor(s, ctx, j).Some?
  {
    assert LegPriceable(s, ctx, j);
    hide LegFactor;
  }

  lemma DefaultedParts(e: Engine, s: Swap, ctx: Context, named: Context, notional: real, factor: real)
    requires ValidSwap(s) && Price(e, s, ctx).Some? && ReportingCcy(s, named) == ReportingCcy(s, ctx)
    requires LegPVs(e, s, named, |s.legs|) == LegPVs(e, s, ctx, |s.legs|)
    requires Npv(e, s, BumpParallel(named, BP)) == Npv(e, s, BumpParallel(ctx, BP))
    requires Npv(e, s, BumpParallel(named, -BP)) == Npv(e, s, BumpParallel(ctx, -BP))
    requires ReferenceNotional(s, ctx) == Some(Converted(notional, 1.0))
    requires ReferenceNotional(s, named) == Some(Converted(notional, factor))
    ensures Price(e, s, named).Some?
    ensures SameButDivided(Price(e, s, ctx).value, Price(e, s, named).value, factor)
  {
    hide Npv, BumpParallel, LegPVs, ReferenceNotional, ModDuration, Convexity, AbsDv01, ParRate, Sum, ReportingCcy,
         Converted;
    var up, down := Npv(e, s, BumpParallel(ctx, BP)).value, Npv(e, s, BumpParallel(ctx, -BP)).value;
    var plain := ModDuration(up, down, Converted(notional, 1.0));
    if plain.Some? && ModDuration(up, down, Converted(notional, factor)).Some? {
      DurationConverts(up, down, notional, factor);
    }
    var npv := Sum(LegPVs(e, s, ctx, |s.legs|).value);
    var bent := Convexity(up, down, npv, Converted(notional, 1.0));
    if bent.Some? && Convexity(up, down, npv, Converted(notional, factor)).Some? {
      ConvexityConverts(up, down, npv, notional, factor);
    }
  }

  const EUROS := Curve("EUR", Discount, None, 0, [], Days360)
  const DOLLAR_HALF := Context(EUROS, None, [], [], Some([("EUR", Pair(EUROS, [])), ("USD", Pair(FLAT, []))]),
                               map["USDEUR" := 0.5], None, None, None)
  const EURO_LEG := Float(Pay, "EUR", 50.0, "ESTR", 0.0, Schedules.Act365, YEAR)
  const ACROSS := Swap(XCCY, [EURO_LEG, YearLeg(Receive, 0.05)], 365)

  /** A swap reported in euros by default, whose duration is divided by the dollar notional as it stands. */
  lemma DollarsForEuros()
    ensures Priceable(ACROSS, DOLLAR_HALF) && ReportingCcy(ACROSS, DOLLAR_HALF) == Some("EUR")
    ensures ReferenceNotional(ACROSS, DOLLAR_HALF) == Some(100.0)
    ensures ReferenceNotional(ACROSS, Named(ACROSS, DOLLAR_HALF)) == Some(50.0)
  {
    var spots := DOLLAR_HALF.fxSpots;
    assert "USD" + "EUR" == "USDEUR";
    assert ACROSS.legs[1].Fixed? && !ACROSS.legs[0].Fixed?;
    assert FirstFixed(ACROSS.legs, 1) == Some(1) && FirstFixed(ACROSS.legs, 0) == Some(1);
    assert FxFactor("USD", "EUR", spots) == Some(0.5) && FxFactor("EUR", "EUR", spots) == Some(1.0);
    var book := DOLLAR_HALF.book.value;
    assert book[1..][0].0 == "USD";
    assert Lookup(book[1..], "USD").Some? && Lookup(book, "USD").Some? && Lookup(book, "EUR").Some?;
    NamedReference(ACROSS, DOLLAR_HALF);
  }
}
