/** The full valuation of a swap, and the fixed rate that makes it worth nothing. */
module Valuation {
  import opened Directions
  import opened Options
  import opened Numbers
  import opened Calendar
  import opened Schedules
  import opened Pricing
  import opened Linearity
  import opened Bumps

  const BP := 0.0001

  datatype Result = Result(npv: real, legPVs: seq<real>, dv01: real, parRate: Option<real>, modDuration: Option<real>,
                           convexity: Option<real>)

  // ----- The price of a swap -----

  function Sum(xs: seq<real>): real {
    if xs == [] then 0.0 else Sum(xs[..|xs| - 1]) + xs[|xs| - 1]
  }

  /** The sum without the element at `skip`. */
  function SumExcept(xs: seq<real>, skip: int): real {
    if xs == [] then 0.0
    else
      var n := |xs| - 1;
      SumExcept(xs[..n], skip) + if n == skip then 0.0 else xs[n]
  }

  /** The values of the first `n` legs; None when one throws. */
  function LegPVs(e: Engine, s: Swap, ctx: Context, n: nat): (r: Option<seq<real>>)
    requires ValidSwap(s) && n <= |s.legs|
    ensures r.Some? ==> |r.value| == n
  {
    if n == 0 then Some([])
    else
      var rest, pv := LegPVs(e, s, ctx, n - 1), LegPV(e, s, ctx, n - 1);
      if rest.None? || pv.None? then None else Some(rest.value + [pv.value])
  }

  /** Position of the first fixed leg. */
  function FirstFixed(legs: seq<Leg>, i: nat): (r: Option<nat>)
    requires i <= |legs|
    ensures r.Some? ==> i <= r.value < |legs| && legs[r.value].Fixed?
    decreases |legs| - i
  {
    if i == |legs| then None else if legs[i].Fixed? then Some(i) else FirstFixed(legs, i + 1)
  }

  function FirstPositive(legs: seq<Leg>, i: nat): (r: Option<nat>)
    requires i <= |legs|
    ensures r.Some? ==> i <= r.value < |legs| && legs[r.value].notional > 0.0
    decreases |legs| - i
  {
    if i == |legs| then None else if legs[i].notional > 0.0 then Some(i) else FirstPositive(legs, i + 1)
  }

  /** The leg risk metrics are normalised by: the fixed leg, else the first one with a positive notional. */
  function ReferenceLeg(legs: seq<Leg>): (r: Option<nat>)
    ensures r.Some? ==> r.value < |legs|
  {
    if FirstFixed(legs, 0).Some? then FirstFixed(legs, 0) else FirstPositive(legs, 0)
  }

  function ReferenceFactor(s: Swap, ctx: Context, l: Leg): Option<real> {
    if !s.kind.XCCY? then Some(1.0)
    else
      var reporting := GetOr(ctx.reportingCcy, GetOr(LegCurrency(l), "USD"));
      FxFactor(GetOr(LegCurrency(l), reporting), reporting, ctx.fxSpots)
  }

  function Converted(notional: real, factor: real): real { Abs(notional) * factor }

  function ReferenceNotional(s: Swap, ctx: Context): Option<real> {
    var i := ReferenceLeg(s.legs);
    if i.None? then Some(0.0)
    else
      var l := s.legs[i.value];
      var factor := ReferenceFactor(s, ctx, l);
      if factor.None? then None else Some(Converted(l.notional, factor.value))
  }

  /** The fixed rate at which the first fixed leg would offset the others, from the legs' values. */
  function ParRate(legs: seq<Leg>, pvs: seq<real>): Option<real>
    requires |legs| == |pvs|
  {
    var j := FirstFixed(legs, 0);
    if j.None? || legs[j.value].rate == 0.0 then None
    else
      var annuity := pvs[j.value] / legs[j.value].rate;
      if annuity == 0.0 then None else Some(-SumExcept(pvs, j.value) / annuity)
  }

  function AbsDv01(up: real, down: real): real { Abs(up - down) / 2.0 }

  function ModDuration(up: real, down: real, refN: real): Option<real> {
    if refN > 0.0 then Some(-((up - down) / (2.0 * BP)) / refN) else None
  }

  function Convexity(up: real, down: real, npv: real, refN: real): Option<real> {
    if refN > 0.0 then Some((up + down - 2.0 * npv) / (refN * BP * BP)) else None
  }

  /** `pricingEngine.price`; None where it throws. */
  function Price(e: Engine, s: Swap, ctx: Context): Option<Result>
    requires ValidSwap(s)
  {
    var pvs := LegPVs(e, s, ctx, |s.legs|);
    if ReportingCcy(s, ctx).None? || pvs.None? then None
    else
      var npv := Sum(pvs.value);
      var up, down := Npv(e, s, BumpParallel(ctx, BP)), Npv(e, s, BumpParallel(ctx, -BP));
      var refN := ReferenceNotional(s, ctx);
      if up.None? || down.None? || refN.None? then None
      else Some(Result(npv, pvs.value, AbsDv01(up.value, down.value), ParRate(s.legs, pvs.value),
                       ModDuration(up.value, down.value, refN.value), Convexity(up.value, down.value, npv, refN.value)))
  }

  lemma {:induction false} LegPVsSum(e: Engine, s: Swap, ctx: Context, n: nat)
    requires ValidSwap(s) && n <= |s.legs|
    ensures NpvOf(e, s, ctx, n) == if LegPVs(e, s, ctx, n).Some? then Some(Sum(LegPVs(e, s, ctx, n).value)) else None
  {
    hide LegPV;
    if n > 0 {
      LegPVsSum(e, s, ctx, n - 1);
      var rest, pv := LegPVs(e, s, ctx, n - 1), LegPV(e, s, ctx, n - 1);
      if rest.Some? && pv.Some? {
        assert (rest.value + [pv.value])[..n - 1] == rest.value;
      }
    }
  }

  lemma {:induction false} LegPVsAt(e: Engine, s: Swap, ctx: Context, n: nat, i: nat)
    requires ValidSwap(s) && i < n <= |s.legs| && LegPVs(e, s, ctx, n).Some?
    ensures LegPV(e, s, ctx, i) == Some(LegPVs(e, s, ctx, n).value[i])
  {
    hide LegPV;
    if i < n - 1 {
      LegPVsAt(e, s, ctx, n - 1, i);
    }
  }

  lemma ReferenceConverts(s: Swap, ctx: Context)
    requires Priceable(s, ctx)
    ensures ReferenceNotional(s, ctx).Some?
  {
    var i := ReferenceLeg(s.legs);
    if i.Some? {
      assert LegPriceable(s, ctx, i.value);
      hide FxFactor, ReferenceLeg;
      SameCurrencyConverts(ctx, GetOr(LegCurrency(s.legs[i.value]), "USD"));
    }
  }

  lemma SameCurrencyConverts(ctx: Context, ccy: string)
    ensures FxFactor(ccy, ccy, ctx.fxSpots) == Some(1.0)
  {
  }

  /** `price` and the shortcut `priceWithContext` agree on the NPV, and throw on the same swaps. */
  lemma PriceIsNpv(e: Engine, s: Swap, ctx: Context)
    requires ValidSwap(s)
    ensures Npv(e, s, ctx) == if Price(e, s, ctx).Some? then Some(Price(e, s, ctx).value.npv) else None
  {
    hide Priceable, ReportingCcy, BumpParallel, LegPVs, NpvOf, ReferenceNotional, ParRate, Sum;
    LegPVsSum(e, s, ctx, |s.legs|);
    PricesIff(e, s, ctx);
    if Priceable(s, ctx) {
      ParallelPriceable(s, ctx, BP);
      ParallelPriceable(s, ctx, -BP);
      PricesIff(e, s, BumpParallel(ctx, BP));
      PricesIff(e, s, BumpParallel(ctx, -BP));
      ReferenceConverts(s, ctx);
    }
  }

  // ----- Par rate -----

  function WithRate(l: Leg, rate: real): Leg
    requires l.Fixed?
  {
    l.(rate := rate)
  }

  /** The swap with the rate of its first fixed leg replaced. */
  function Reprice(s: Swap, j: nat, rate: real): (t: Swap)
    requires j < |s.legs| && s.legs[j].Fixed?
    ensures ValidSwap(s) ==> ValidSwap(t)
    ensures t.kind == s.kind && |t.legs| == |s.legs| && t.maturityDate == s.maturityDate
    ensures t.legs[j] == WithRate(s.legs[j], rate) && forall i :: 0 <= i < |s.legs| && i != j ==> t.legs[i] == s.legs[i]
  {
    assert s.legs[j] in s.legs;
    s.(legs := s.legs[j := WithRate(s.legs[j], rate)])
  }

  /** The signed, converted value of the principal a cross-currency fixed leg exchanges; 0 for other swaps. */
  function PrincipalValue(e: Engine, s: Swap, ctx: Context, j: nat): real
    requires j < |s.legs| && s.legs[j].Fixed?
  {
    var l := s.legs[j];
    var pair, factor := PairOf(ctx, l.currency), LegFactor(s, ctx, j);
    if !s.kind.XCCY? || pair.None? || factor.None? then 0.0
    else
      var curve := pair.value.discount;
      Signed(l.direction, PrincipalPV(e, l, curve, GetOr(ctx.valueDate, curve.asOf)), factor.value)
  }

  lemma RepriceKeeps(s: Swap, ctx: Context, j: nat, rate: real)
    requires j < |s.legs| && s.legs[j].Fixed?
    ensures ReportingCcy(Reprice(s, j, rate), ctx) == ReportingCcy(s, ctx)
    ensures forall i :: 0 <= i < |s.legs| ==> LegFactor(Reprice(s, j, rate), ctx, i) == LegFactor(s, ctx, i)
  {
    var t := Reprice(s, j, rate);
    assert forall i :: 0 <= i < |s.legs| ==> LegCurrency(t.legs[i]) == LegCurrency(s.legs[i]);
    hide FxFactor, Reprice, LegCurrency;
  }

  lemma OthersUnchanged(e: Engine, s: Swap, ctx: Context, j: nat, rate: real, i: nat)
    requires ValidSwap(s) && j < |s.legs| && s.legs[j].Fixed? && i < |s.legs| && i != j
    ensures LegPV(e, Reprice(s, j, rate), ctx, i) == LegPV(e, s, ctx, i)
  {
    RepriceKeeps(s, ctx, j, rate);
    var t := Reprice(s, j, rate);
    hide Reprice, LegCoupons, XccyCashflows, SurvivalWeighted, ProtectionAmount, PairOf;
    assert LegCashflows(e, t, ctx, i) == LegCashflows(e, s, ctx, i);
    hide LegCashflows, LegDiscount, ValueOn, LegFactor, Signed;
  }

  /** Coupons are proportional to the rate. */
  lemma RepricedCoupons(e: Engine, kind: SwapType, l: Leg, ctx: Context, i: nat, k: real)
    requires ValidLeg(l) && l.Fixed?
    ensures Scaled(LegCoupons(e, kind, WithRate(l, Scale(k, l.rate)), ctx, i), LegCoupons(e, kind, l, ctx, i), k)
  {
    if kind.BASIS? {
      EmptyScaled(k);
    } else {
      var t, u := FixedTerms(l.notional, l.dayCount, l.rate), FixedTerms(l.notional, l.dayCount, Scale(k, l.rate));
      forall start, end
        ensures CouponAmount(e, u, start, end) == Scale(k, CouponAmount(e, t, start, end))
      {
        hide Coupon, Scale;
        CouponScales(k, l.rate, l.notional, l.dayCount, start, end);
      }
      hide Scale, CouponAmount, Scaled, Coupons;
      CouponsScale(e, t, u, k, l.schedule);
    }
  }

  lemma SignedAdds(d: Direction, a: real, b: real, factor: real)
    ensures Signed(d, a + b, factor) == Signed(d, a, factor) + Signed(d, b, factor)
  {
    assert DirectionSign(d) * (a + b) == DirectionSign(d) * a + DirectionSign(d) * b;
    assert (DirectionSign(d) * a + DirectionSign(d) * b) * factor
        == DirectionSign(d) * a * factor + DirectionSign(d) * b * factor;
  }

  /** `p` stays, the rest of `x` is multiplied by k. */
  function Affine(k: real, p: real, x: real): real { p + Scale(k, x - p) }

  lemma ProportionalLeg(e: Engine, s: Swap, ctx: Context, j: nat, k: real)
    requires ValidSwap(s) && j < |s.legs| && s.legs[j].Fixed? && !s.kind.XCCY?
    ensures LegPV(e, Reprice(s, j, Scale(k, s.legs[j].rate)), ctx, j) == ScaleOption(LegPV(e, s, ctx, j), k)
  {
    var l, t := s.legs[j], Reprice(s, j, Scale(k, s.legs[j].rate));
    assert ValidLeg(l);
    RepriceKeeps(s, ctx, j, Scale(k, l.rate));
    var a, b := LegCoupons(e, s.kind, t.legs[j], ctx, j), LegCoupons(e, s.kind, l, ctx, j);
    RepricedCoupons(e, s.kind, l, ctx, j, k);
    SurvivalScales(e, ctx, a, b, k);
    hide Scale, Reprice, LegCoupons, SurvivalWeighted, Scaled, ProtectionAmount, DefaultProbability, LegFactor, LegPV;
    assert ScaledOption(LegCashflows(e, t, ctx, j), LegCashflows(e, s, ctx, j), k);
    LegPVFollows(e, s, t, ctx, j, k);
  }

  lemma XccyDiscount(l: Leg, coupons: seq<Entry>, ctx: Context)
    requires !l.Protection? && PairOf(ctx, l.currency).Some?
    ensures LegDiscount(XCCY, XccyCashflows(l, coupons), ctx) == Some(PairOf(ctx, l.currency).value.discount)
  {
    XccyTagged(l, coupons);
    hide XccyCashflows, PairOf;
  }

  lemma XccyLegCashflows(e: Engine, s: Swap, ctx: Context, j: nat)
    requires ValidSwap(s) && j < |s.legs| && s.legs[j].Fixed? && s.kind.XCCY? && PairOf(ctx, s.legs[j].currency).Some?
    ensures ValidLeg(s.legs[j])
    ensures LegCashflows(e, s, ctx, j) == Some(XccyCashflows(s.legs[j], LegCoupons(e, XCCY, s.legs[j], ctx, j)))
  {
    assert ValidLeg(s.legs[j]);
    hide LegCoupons, XccyCashflows, PairOf;
  }

  lemma XccyLocalIsValue(e: Engine, s: Swap, ctx: Context, j: nat)
    requires ValidSwap(s) && j < |s.legs| && s.legs[j].Fixed? && s.kind.XCCY? && PairOf(ctx, s.legs[j].currency).Some?
    ensures ValidLeg(s.legs[j])
    ensures var l := s.legs[j];
            LegLocalPV(e, s, ctx, j)
            == ValueOn(e, XccyCashflows(l, LegCoupons(e, XCCY, l, ctx, j)),
                       Some(PairOf(ctx, l.currency).value.discount), ctx.valueDate)
  {
    XccyLegCashflows(e, s, ctx, j);
    hide LegCashflows, LegDiscount, LegCoupons, XccyCashflows, ValueOn, PairOf, ValidLeg;
    XccyDiscount(s.legs[j], LegCoupons(e, XCCY, s.legs[j], ctx, j), ctx);
  }

  /** What a cross-currency fixed leg is worth before sign and conversion: principal exchange plus coupons. */
  lemma XccyLocal(e: Engine, s: Swap, ctx: Context, j: nat, curve: Curve, cutoff: int)
    requires ValidSwap(s) && j < |s.legs| && s.legs[j].Fixed? && s.kind.XCCY? && PairOf(ctx, s.legs[j].currency).Some?
    requires curve == PairOf(ctx, s.legs[j].currency).value.discount && cutoff == GetOr(ctx.valueDate, curve.asOf)
    ensures ValidLeg(s.legs[j])
    ensures LegLocalPV(e, s, ctx, j)
            == Some(PrincipalPV(e, s.legs[j], curve, cutoff)
                    + PresentValue(e, LegCoupons(e, XCCY, s.legs[j], ctx, j), curve, cutoff))
  {
    hide *;
    XccyLocalIsValue(e, s, ctx, j);
    XccyValue(e, s.legs[j], LegCoupons(e, XCCY, s.legs[j], ctx, j), curve, ctx.valueDate);
  }

  lemma LegIsValid(s: Swap, j: nat)
    requires ValidSwap(s) && j < |s.legs|
    ensures ValidLeg(s.legs[j])
  {
    assert s.legs[j] in s.legs;
    hide ValidLeg;
  }

  lemma SamePrincipal(e: Engine, l: Leg, rate: real, curve: Curve, cutoff: int)
    requires l.Fixed?
    ensures WithRate(l, rate).Fixed? && WithRate(l, rate).currency == l.currency
    ensures PrincipalPV(e, WithRate(l, rate), curve, cutoff) == PrincipalPV(e, l, curve, cutoff)
  {
    hide PresentValue, Principal;
  }

  /** Repricing multiplies the coupons of a cross-currency fixed leg and leaves its principal alone. */
  lemma XccyRepriced(e: Engine, s: Swap, ctx: Context, j: nat, k: real, curve: Curve, cutoff: int)
    requires ValidSwap(s) && j < |s.legs| && s.legs[j].Fixed? && s.kind.XCCY? && PairOf(ctx, s.legs[j].currency).Some?
    requires curve == PairOf(ctx, s.legs[j].currency).value.discount && cutoff == GetOr(ctx.valueDate, curve.asOf)
    ensures ValidLeg(s.legs[j])
    ensures LegLocalPV(e, Reprice(s, j, Scale(k, s.legs[j].rate)), ctx, j)
            == Some(PrincipalPV(e, s.legs[j], curve, cutoff)
                    + Scale(k, PresentValue(e, LegCoupons(e, XCCY, s.legs[j], ctx, j), curve, cutoff)))
  {
    hide *;
    var l, t := s.legs[j], Reprice(s, j, Scale(k, s.legs[j].rate));
    LegIsValid(s, j);
    SamePrincipal(e, l, Scale(k, l.rate), curve, cutoff);
    XccyLocal(e, t, ctx, j, curve, cutoff);
    RepricedCoupons(e, XCCY, l, ctx, j, k);
    PresentValueScales(e, LegCoupons(e, XCCY, t.legs[j], ctx, j), LegCoupons(e, XCCY, l, ctx, j), curve, cutoff, k);
  }

  lemma SignedAffine(d: Direction, p: real, c: real, k: real, factor: real)
    ensures Signed(d, p + Scale(k, c), factor) == Affine(k, Signed(d, p, factor), Signed(d, p + c, factor))
  {
    hide Signed, Scale;
    SignedAdds(d, p, c, factor);
    SignedAdds(d, p, Scale(k, c), factor);
    SignedScales(k, d, c, factor);
  }

  lemma AffineLeg(e: Engine, s: Swap, ctx: Context, j: nat, k: real)
    requires ValidSwap(s) && j < |s.legs| && s.legs[j].Fixed? && s.kind.XCCY? && LegPV(e, s, ctx, j).Some?
    ensures LegPV(e, Reprice(s, j, Scale(k, s.legs[j].rate)), ctx, j)
            == Some(Affine(k, PrincipalValue(e, s, ctx, j), LegPV(e, s, ctx, j).value))
  {
    hide LegLocalPV, PresentValue, PrincipalPV, LegCoupons, Reprice, LegFactor, Signed, Scale, Affine, PairOf, GetOr;
    var l := s.legs[j];
    RepriceKeeps(s, ctx, j, Scale(k, l.rate));
    LegPricesIff(e, s, ctx, j);
    var curve := PairOf(ctx, l.currency).value.discount;
    var cutoff := GetOr(ctx.valueDate, curve.asOf);
    XccyLocal(e, s, ctx, j, curve, cutoff);
    XccyRepriced(e, s, ctx, j, k, curve, cutoff);
    SignedAffine(l.direction, PrincipalPV(e, l, curve, cutoff),
                 PresentValue(e, LegCoupons(e, XCCY, l, ctx, j), curve, cutoff), k, LegFactor(s, ctx, j).value);
  }

  /** The value of the first fixed leg after its rate is multiplied by k. */
  lemma FixedLegAffine(e: Engine, s: Swap, ctx: Context, j: nat, k: real)
    requires ValidSwap(s) && j < |s.legs| && s.legs[j].Fixed? && LegPV(e, s, ctx, j).Some?
    ensures LegPV(e, Reprice(s, j, Scale(k, s.legs[j].rate)), ctx, j)
            == Some(Affine(k, PrincipalValue(e, s, ctx, j), LegPV(e, s, ctx, j).value))
  {
    hide LegPV, Scale, Reprice;
    if s.kind.XCCY? {
      AffineLeg(e, s, ctx, j, k);
    } else {
      ProportionalLeg(e, s, ctx, j, k);
      assert PrincipalValue(e, s, ctx, j) == 0.0;
    }
  }

  /** The NPV of a swap whose first fixed leg is repriced, from the other legs and the new value. */
  lemma {:induction false} RepricedNpv(e: Engine, s: Swap, t: Swap, ctx: Context, pvs: seq<real>, j: nat, pv: real,
                                       n: nat)
    requires ValidSwap(s) && ValidSwap(t) && n <= |pvs| == |s.legs| == |t.legs|
    requires forall i :: 0 <= i < |s.legs| ==> LegPV(e, t, ctx, i) == Some(if i == j then pv else pvs[i])
    ensures NpvOf(e, t, ctx, n) == Some(SumExcept(pvs[..n], j) + if j < n then pv else 0.0)
  {
    hide LegPV;
    if n > 0 {
      RepricedNpv(e, s, t, ctx, pvs, j, pv, n - 1);
      assert pvs[..n][..n - 1] == pvs[..n - 1];
    }
  }

  lemma {:induction false} SumSplits(xs: seq<real>, j: nat)
    requires j < |xs|
    ensures Sum(xs) == SumExcept(xs, j) + xs[j]
  {
    var n := |xs| - 1;
    if j < n {
      SumSplits(xs[..n], j);
    } else {
      SumWithoutOutside(xs[..n], j);
    }
  }

  lemma {:induction false} SumWithoutOutside(xs: seq<real>, j: nat)
    requires |xs| <= j
    ensures SumExcept(xs, j) == Sum(xs)
  {
    if xs != [] {
      SumWithoutOutside(xs[..|xs| - 1], j);
    }
  }

  /** The multiple of the rate that the par rate -others / (fixed / rate) is. */
  lemma ParMultiple(others: real, fixed: real, rate: real, par: real) returns (k: real)
    requires rate != 0.0 && fixed / rate != 0.0 && par == -others / (fixed / rate)
    ensures fixed != 0.0 && k == -others / fixed && par == Scale(k, rate)
  {
    assert (fixed / rate) * rate == fixed;
    k := -others / fixed;
    DivideBack(others, fixed, rate, par, k);
  }

  /** Where the fixed leg keeps `p` whatever its rate, the repriced sum `x` relates to the old one like p to `fixed`. */
  lemma RootArithmetic(others: real, fixed: real, p: real, k: real, x: real, npv: real)
    requires fixed != 0.0 && k == -others / fixed && x == others + Affine(k, p, fixed) && npv == others + fixed
    ensures x * fixed == p * npv && (x == 0.0 <==> p == 0.0 || npv == 0.0)
  {
    assert k * fixed == -others;
    assert (k * (fixed - p)) * fixed == (k * fixed) * (fixed - p) == -others * (fixed - p);
    assert x * fixed == others * fixed + p * fixed + (k * (fixed - p)) * fixed;
    assert others * fixed + p * fixed - others * (fixed - p) == p * (others + fixed);
    ZeroProductIff(x, fixed, p, npv);
  }

  lemma DivideBack(others: real, fixed: real, rate: real, par: real, k: real)
    requires rate != 0.0 && fixed != 0.0 && fixed / rate != 0.0 && par == -others / (fixed / rate)
    requires k == -others / fixed
    ensures par == k * rate
  {
    var annuity := fixed / rate;
    assert par * annuity == -others;
    assert fixed == annuity * rate;
    assert (k * rate) * annuity == k * fixed == -others;
    CancelRight(par, k * rate, annuity);
  }

  lemma CancelRight(a: real, b: real, c: real)
    requires a * c == b * c && c != 0.0
    ensures a == b
  {
    assert (a - b) * c == 0.0;
  }

  lemma ZeroProductIff(x: real, fixed: real, p: real, npv: real)
    requires x * fixed == p * npv && fixed != 0.0
    ensures x == 0.0 <==> p == 0.0 || npv == 0.0
  {
  }

  /**
   Repriced at the reported par rate the swap is worth p * npv / fixed, with p the value of the principal exchange.
   */
  lemma ParRateIff(e: Engine, s: Swap, ctx: Context)
    requires ValidSwap(s) && Price(e, s, ctx).Some? && Price(e, s, ctx).value.parRate.Some?
    ensures var v, j := Price(e, s, ctx).value, FirstFixed(s.legs, 0).value;
            var p, npv := PrincipalValue(e, s, ctx, j), Npv(e, Reprice(s, j, v.parRate.value), ctx);
            npv.Some? && npv.value * v.legPVs[j] == p * v.npv && (npv.value == 0.0 <==> p == 0.0 || v.npv == 0.0)
  {
    hide Npv, LegPV, PrincipalValue, Scale, Affine, Reprice, ReportingCcy, Sum, SumExcept;
    var v, j := Price(e, s, ctx).value, FirstFixed(s.legs, 0).value;
    var pvs := v.legPVs;
    PriceShape(e, s, ctx);
    hide Price;
    var k := ParMultiple(SumExcept(pvs, j), pvs[j], s.legs[j].rate, v.parRate.value);
    RepricedAt(e, s, ctx, pvs, j, k);
    SumSplits(pvs, j);
    var npv := Npv(e, Reprice(s, j, v.parRate.value), ctx).value;
    RootArithmetic(SumExcept(pvs, j), pvs[j], PrincipalValue(e, s, ctx, j), k, npv, v.npv);
  }

  lemma PriceShape(e: Engine, s: Swap, ctx: Context)
    requires ValidSwap(s) && Price(e, s, ctx).Some? && Price(e, s, ctx).value.parRate.Some?
    ensures FirstFixed(s.legs, 0).Some? && ReportingCcy(s, ctx).Some?
    ensures var v, j := Price(e, s, ctx).value, FirstFixed(s.legs, 0).value;
            && LegPVs(e, s, ctx, |s.legs|) == Some(v.legPVs) && v.npv == Sum(v.legPVs)
            && s.legs[j].rate != 0.0 && v.legPVs[j] / s.legs[j].rate != 0.0
            && v.parRate.value == -SumExcept(v.legPVs, j) / (v.legPVs[j] / s.legs[j].rate)
  {
    hide Npv, LegPVs, BumpParallel, ReferenceNotional, ReportingCcy, Sum, SumExcept, FirstFixed;
  }

  lemma RepricedAt(e: Engine, s: Swap, ctx: Context, pvs: seq<real>, j: nat, k: real)
    requires ValidSwap(s) && j < |s.legs| && s.legs[j].Fixed? && ReportingCcy(s, ctx).Some?
    requires LegPVs(e, s, ctx, |s.legs|) == Some(pvs)
    ensures Npv(e, Reprice(s, j, Scale(k, s.legs[j].rate)), ctx)
            == Some(SumExcept(pvs, j) + Affine(k, PrincipalValue(e, s, ctx, j), pvs[j]))
  {
    hide LegPV, PrincipalValue, Scale, Affine, Reprice, ReportingCcy, SumExcept, LegPVs;
    var t := Reprice(s, j, Scale(k, s.legs[j].rate));
    var pv := Affine(k, PrincipalValue(e, s, ctx, j), pvs[j]);
    forall i | 0 <= i < |s.legs|
      ensures LegPV(e, t, ctx, i) == Some(if i == j then pv else pvs[i])
    {
      LegPVsAt(e, s, ctx, |s.legs|, i);
      if i == j {
        FixedLegAffine(e, s, ctx, j, k);
      } else {
        OthersUnchanged(e, s, ctx, j, Scale(k, s.legs[j].rate), i);
      }
    }
    RepriceKeeps(s, ctx, j, Scale(k, s.legs[j].rate));
    RepricedNpv(e, s, t, ctx, pvs, j, pv, |pvs|);
    assert pvs[..|pvs|] == pvs;
  }

  /** For IRS, OIS, basis swaps and CDS the reported par rate, when there is one, is the root. */
  lemma ParRateIsRoot(e: Engine, s: Swap, ctx: Context)
    requires ValidSwap(s) && !s.kind.XCCY? && Price(e, s, ctx).Some? && Price(e, s, ctx).value.parRate.Some?
    ensures Npv(e, Reprice(s, FirstFixed(s.legs, 0).value, Price(e, s, ctx).value.parRate.value), ctx) == Some(0.0)
  {
    ParRateIff(e, s, ctx);
    hide Npv, Price, Reprice;
  }

  // ----- A cross-currency swap whose par rate misses -----

  const YEAR := Schedule(Date(1970, 0, 1), Date(1971, 0, 1), Annual)
  const FLAT := Curve("USD", Discount, None, 0, [], Days360)
  const LINEAR := LinearEngine((x: real) => 1.0)
  const TODAY := Context(FLAT, None, [], [], Some([("USD", Pair(FLAT, []))]), map[], None, None, None)

  function YearLeg(d: Direction, rate: real): Leg { Fixed(d, "USD", 100.0, rate, Act365, YEAR) }

  const MISSES := Swap(XCCY, [YearLeg(Receive, 0.05), YearLeg(Pay, 0.03)], 365)

  lemma YearDates()
    ensures AddMonths(YEAR.start, 12) == YEAR.end && Valid(YEAR.start) && Valid(YEAR.end)
    ensures DayNumber(YEAR.start) == 0 && DayNumber(YEAR.end) == 365
  {
  }

  lemma OneYear()
    ensures ValidSchedule(YEAR) && ScheduleDates(YEAR) == [YEAR.end]
    ensures YearFraction(YEAR.start, YEAR.end, Act365) == 1.0
  {
    YearDates();
    hide AddMonths, DayNumber, Valid;
    AddMonthsIsMakeDay(YEAR.end, 12);
    AddMonthsMoves(YEAR.end, 12);
    assert DatesFrom(AddMonths(YEAR.end, 12), YEAR.end, 12) == [];
    assert DatesFrom(YEAR.end, YEAR.end, 12) == [YEAR.end];
  }

  lemma YearLegValue(l: Leg, d: Direction, rate: real)
    requires l == YearLeg(d, rate)
    ensures ValidLeg(l)
    ensures PrincipalPV(LINEAR, l, FLAT, 0) == 100.0
    ensures PresentValue(LINEAR, LegCoupons(LINEAR, XCCY, l, TODAY, 0), FLAT, 0) == 100.0 * rate
    ensures LegCoupons(LINEAR, XCCY, l, TODAY, 1) == LegCoupons(LINEAR, XCCY, l, TODAY, 0)
  {
    OneYear();
    YearDates();
    hide ScheduleDates, DayNumber, YearFraction;
    var principal, coupons := Principal(l.notional, l.schedule), LegCoupons(LINEAR, XCCY, l, TODAY, 0);
    assert principal[..1] == [principal[0]] && principal[..1][..0] == [];
    assert PresentValue(LINEAR, principal, FLAT, 0) == 100.0;
    assert coupons == [Entry(365, 100.0 * rate * 1.0, None)] && coupons[..0] == [];
  }

  lemma MissesLeg(i: nat, local: real)
    requires i < 2 && ValidSwap(MISSES) && LegLocalPV(LINEAR, MISSES, TODAY, i) == Some(local)
    ensures LegPV(LINEAR, MISSES, TODAY, i) == Some(if i == 0 then local else -local)
  {
    hide LegLocalPV;
    SameCurrencyConverts(TODAY, "USD");
    assert LegFactor(MISSES, TODAY, i) == Some(1.0);
  }

  lemma MissesParts()
    requires ValidSwap(MISSES)
    requires LegPV(LINEAR, MISSES, TODAY, 0) == Some(105.0) && LegPV(LINEAR, MISSES, TODAY, 1) == Some(-103.0)
    ensures LegPVs(LINEAR, MISSES, TODAY, 2) == Some([105.0, -103.0]) && Sum([105.0, -103.0]) == 2.0
    ensures ParRate(MISSES.legs, [105.0, -103.0]).Some? && FirstFixed(MISSES.legs, 0) == Some(0)
  {
    hide LegPV;
    assert LegPVs(LINEAR, MISSES, TODAY, 0) == Some([]);
    assert [] + [105.0] == [105.0] && [105.0] + [-103.0] == [105.0, -103.0];
    assert LegPVs(LINEAR, MISSES, TODAY, 1) == Some([105.0]);
    assert [105.0, -103.0][..1] == [105.0] && [105.0][..0] == [];
  }

  lemma MissesPrincipal()
    requires PrincipalPV(LINEAR, YearLeg(Receive, 0.05), FLAT, 0) == 100.0
    ensures PrincipalValue(LINEAR, MISSES, TODAY, 0) == 100.0
  {
    hide PrincipalPV;
    SameCurrencyConverts(TODAY, "USD");
    assert LegFactor(MISSES, TODAY, 0) == Some(1.0);
  }

  lemma MissesPrice()
    requires ValidSwap(MISSES) && LegPVs(LINEAR, MISSES, TODAY, 2) == Some([105.0, -103.0])
    ensures Price(LINEAR, MISSES, TODAY).Some? && Price(LINEAR, MISSES, TODAY).value.legPVs == [105.0, -103.0]
    ensures Price(LINEAR, MISSES, TODAY).value.npv == Sum([105.0, -103.0])
    ensures Price(LINEAR, MISSES, TODAY).value.parRate == ParRate(MISSES.legs, [105.0, -103.0])
  {
    hide LegPVs, BumpParallel, ReferenceNotional, Sum, ParRate, NpvOf;
    LegPVsSum(LINEAR, MISSES, TODAY, 2);
    PriceIsNpv(LINEAR, MISSES, TODAY);
  }

  /** A one-year swap of two fixed legs, the first exchange of each already made: at its par rate it is not worth 0. */
  lemma XccyParMisses()
    ensures ValidSwap(MISSES) && Price(LINEAR, MISSES, TODAY).Some? && Price(LINEAR, MISSES, TODAY).value.npv == 2.0
    ensures var par := Price(LINEAR, MISSES, TODAY).value.parRate;
            par.Some? && Npv(LINEAR, Reprice(MISSES, 0, par.value), TODAY) != Some(0.0)
  {
    MissesValid();
    MissesLocal(0, Receive, 0.05);
    MissesLocal(1, Pay, 0.03);
    hide Price, LegPV, LegPVs, LegLocalPV, Reprice, Npv, PrincipalPV, PrincipalValue, ParRate, Sum;
    MissesLeg(0, 105.0);
    MissesLeg(1, 103.0);
    MissesParts();
    MissesPrincipal();
    MissesPrice();
    ParRateIff(LINEAR, MISSES, TODAY);
  }

  lemma MissesValid()
    ensures ValidSwap(MISSES)
  {
    YearDates();
  }

  lemma MissesLocal(i: nat, d: Direction, rate: real)
    requires i < 2 && ValidSwap(MISSES) && MISSES.legs[i] == YearLeg(d, rate)
    ensures LegLocalPV(LINEAR, MISSES, TODAY, i) == Some(100.0 + 100.0 * rate)
    ensures PrincipalPV(LINEAR, MISSES.legs[i], FLAT, 0) == 100.0
  {
    YearLegValue(MISSES.legs[i], d, rate);
    hide PresentValue, PrincipalPV, LegCoupons, ScheduleDates, LegLocalPV, ValidLeg, ValidSwap;
    XccyLocal(LINEAR, MISSES, TODAY, i, FLAT, 0);
  }
}
