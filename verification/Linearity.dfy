/** Prices are linear in the notionals, odd in the directions, and blind to the order of cashflows. */
module Linearity {
  import opened Directions
  import opened Options
  import opened Calendar
  import opened Schedules
  import opened Pricing
  import C = Compounding
  import Sorting

  // ----- Arithmetic -----

  function Scale(k: real, x: real): real { k * x }

  lemma Assoc(k: real, a: real, b: real)
    ensures Scale(k, a) * b == Scale(k, a * b)
  {
  }

  lemma Distribute(k: real, a: real, b: real)
    ensures Scale(k, a + b) == Scale(k, a) + Scale(k, b)
  {
  }

  lemma CouponScales(k: real, rate: real, notional: real, dayCount: DayCount, start: Date, end: Date)
    ensures Coupon(rate, Scale(k, notional), dayCount, start, end).amount
        == Scale(k, Coupon(rate, notional, dayCount, start, end).amount)
    ensures Coupon(Scale(k, rate), notional, dayCount, start, end).amount
        == Scale(k, Coupon(rate, notional, dayCount, start, end).amount)
  {
    hide YearFraction;
    Assoc(k, notional, rate);
    assert notional * Scale(k, rate) == Scale(k, notional * rate);
    Assoc(k, notional * rate, YearFraction(start, end, dayCount));
  }

  lemma ForwardAmountScales(k: real, notional: real, forward: real, spread: real, fraction: real)
    ensures ForwardAmount(Scale(k, notional), forward, spread, fraction)
        == Scale(k, ForwardAmount(notional, forward, spread, fraction))
  {
    Assoc(k, notional, forward + spread);
    Assoc(k, notional * (forward + spread), fraction);
  }

  lemma SpreadAmountScales(k: real, spread: real, notional: real, fraction: real)
    ensures SpreadAmount(spread, Scale(k, notional), fraction) == Scale(k, SpreadAmount(spread, notional, fraction))
  {
    assert spread * Scale(k, notional) == Scale(k, spread * notional);
    Assoc(k, spread * notional, fraction);
  }

  lemma ProtectionAmountScales(k: real, notional: real, recoveryRate: real, p: real)
    ensures ProtectionAmount(Scale(k, notional), recoveryRate, p)
            == Scale(k, ProtectionAmount(notional, recoveryRate, p))
  {
    Assoc(k, notional, 1.0 - recoveryRate);
    Assoc(k, notional * (1.0 - recoveryRate), p);
  }

  lemma SignedScales(k: real, d: Direction, pv: real, factor: real)
    ensures Signed(d, Scale(k, pv), factor) == Scale(k, Signed(d, pv, factor))
  {
    assert DirectionSign(d) * Scale(k, pv) == Scale(k, DirectionSign(d) * pv);
    Assoc(k, DirectionSign(d) * pv, factor);
  }

  // ----- Scaled cashflows -----

  /** Same date and tag, amount times k. */
  ghost predicate ScaledEntry(a: Entry, b: Entry, k: real) {
    a.date == b.date && a.currency == b.currency && a.amount == Scale(k, b.amount)
  }

  ghost predicate Scaled(a: seq<Entry>, b: seq<Entry>, k: real) {
    |a| == |b| && forall i :: 0 <= i < |a| ==> ScaledEntry(a[i], b[i], k)
  }

  lemma EmptyScaled(k: real)
    ensures Scaled([], [], k)
  {
  }

  function ScaleTerms(t: Terms, k: real): Terms { t.(notional := Scale(k, t.notional)) }

  lemma CompoundedScales(k: real, forward: C.Forward, index: C.Index, obs: seq<C.Observation>, p: C.Period,
                         notional: real)
    ensures C.Coupon(forward, index, obs, p, Scale(k, notional)) == Scale(k, C.Coupon(forward, index, obs, p, notional))
  {
    hide C.Compounded;
    Assoc(k, notional, C.Compounded(forward, index, C.SortByDate(obs), p) - 1.0);
  }

  lemma CouponAmountScales(e: Engine, t: Terms, k: real, start: Date, end: Date)
    ensures CouponAmount(e, ScaleTerms(t, k), start, end) == Scale(k, CouponAmount(e, t, start, end))
  {
    hide Scale, YearFraction, DayNumber, MidTenor, ForwardOf, C.Coupon, ForwardAmount, SpreadAmount, Coupon;
    match t
    case FixedTerms(notional, dayCount, rate) =>
      CouponScales(k, rate, notional, dayCount, start, end);
    case ForwardTerms(notional, dayCount, curve, spread) =>
      assert ScaleTerms(t, k) == ForwardTerms(Scale(k, notional), dayCount, curve, spread);
      var forward := e.zero(curve, MidTenor(curve, DayNumber(start), DayNumber(end)));
      ForwardAmountScales(k, notional, forward, spread, YearFraction(start, end, dayCount));
    case CompoundedTerms(notional, dayCount, curve, index, observations, spread) =>
      var p := C.Period(DayNumber(start), DayNumber(end));
      CompoundedScales(k, ForwardOf(e, curve), index, observations, p, notional);
      if spread.Some? {
        SpreadAmountScales(k, spread.value, notional, YearFraction(start, end, dayCount));
        Distribute(k, C.Coupon(ForwardOf(e, curve), index, observations, p, notional),
                   SpreadAmount(spread.value, notional, YearFraction(start, end, dayCount)));
      }
  }

  lemma CouponsScale(e: Engine, t: Terms, u: Terms, k: real, s: Schedule)
    requires ValidSchedule(s)
    requires forall start, end :: CouponAmount(e, u, start, end) == Scale(k, CouponAmount(e, t, start, end))
    ensures Scaled(Coupons(e, u, s), Coupons(e, t, s), k)
  {
    hide ScheduleDates, CouponAmount, ValidSchedule, Scale;
  }

  lemma TimesScales(a: Entry, b: Entry, factor: real, k: real)
    requires ScaledEntry(a, b, k)
    ensures ScaledEntry(Times(a, factor), Times(b, factor), k)
  {
    Assoc(k, b.amount, factor);
  }

  lemma SurvivalScales(e: Engine, ctx: Context, a: seq<Entry>, b: seq<Entry>, k: real)
    requires Scaled(a, b, k)
    ensures Scaled(SurvivalWeighted(e, ctx, a), SurvivalWeighted(e, ctx, b), k)
  {
    hide Survival, Scale, Times;
    forall i | 0 <= i < |a|
      ensures ScaledEntry(SurvivalWeighted(e, ctx, a)[i], SurvivalWeighted(e, ctx, b)[i], k)
    {
      assert ScaledEntry(a[i], b[i], k);
      TimesScales(a[i], b[i], Survival(e, ctx, a[i].date), k);
    }
  }

  lemma {:induction false} InsertScales(a: Entry, b: Entry, s: seq<Entry>, t: seq<Entry>, k: real)
    requires Scaled(s, t, k) && ScaledEntry(a, b, k)
    ensures Scaled(Sorting.Insert(a, s, DateOf), Sorting.Insert(b, t, DateOf), k)
  {
    if s != [] {
      assert ScaledEntry(s[0], t[0], k);
      if !(a.date < s[0].date) {
        InsertScales(a, b, s[1..], t[1..], k);
        hide ScaledEntry;
        PrependScales(s[0], t[0], Sorting.Insert(a, s[1..], DateOf), Sorting.Insert(b, t[1..], DateOf), k);
      } else {
        hide ScaledEntry;
        PrependScales(a, b, s, t, k);
      }
    }
  }

  lemma PrependScales(a: Entry, b: Entry, s: seq<Entry>, t: seq<Entry>, k: real)
    requires Scaled(s, t, k) && ScaledEntry(a, b, k)
    ensures Scaled([a] + s, [b] + t, k)
  {
    hide ScaledEntry;
  }

  lemma {:induction false} SortScales(s: seq<Entry>, t: seq<Entry>, k: real)
    requires Scaled(s, t, k)
    ensures Scaled(SortByDate(s), SortByDate(t), k)
  {
    hide ScaledEntry, Sorting.Insert;
    if s != [] {
      var n := |s| - 1;
      SortScales(s[..n], t[..n], k);
      InsertScales(s[n], t[n], SortByDate(s[..n]), SortByDate(t[..n]), k);
    }
  }

  lemma XccyScales(l: Leg, m: Leg, a: seq<Entry>, b: seq<Entry>, k: real)
    requires !l.Protection? && m == ScaleLeg(l, k) && Scaled(a, b, k)
    ensures Scaled(XccyCashflows(m, a), XccyCashflows(l, b), k)
  {
    var s, t := Tag(Principal(m.notional, m.schedule) + a, l.currency),
        Tag(Principal(l.notional, l.schedule) + b, l.currency);
    assert Scale(k, -l.notional) == -Scale(k, l.notional);
    hide Scale;
    forall i | 0 <= i < |s|
      ensures ScaledEntry(s[i], t[i], k)
    {
      if i >= 2 {
        assert ScaledEntry(a[i - 2], b[i - 2], k);
      }
    }
    SortScales(s, t, k);
  }

  // ----- Present values -----

  lemma DiscountedScales(e: Engine, a: Entry, b: Entry, curve: Curve, cutoff: int, k: real)
    requires ScaledEntry(a, b, k)
    ensures Discounted(e, a, curve, cutoff) == Scale(k, Discounted(e, b, curve, cutoff))
  {
    Assoc(k, b.amount, e.df(curve, b.date - curve.asOf));
  }

  lemma {:induction false} PresentValueScales(e: Engine, a: seq<Entry>, b: seq<Entry>, curve: Curve, cutoff: int,
                                              k: real)
    requires Scaled(a, b, k)
    ensures PresentValue(e, a, curve, cutoff) == Scale(k, PresentValue(e, b, curve, cutoff))
  {
    assert Scale(k, 0.0) == 0.0;
    hide ScaledEntry, Discounted, Scale;
    if a != [] {
      var n := |a| - 1;
      PresentValueScales(e, a[..n], b[..n], curve, cutoff, k);
      DiscountedScales(e, a[n], b[n], curve, cutoff, k);
      Distribute(k, PresentValue(e, b[..n], curve, cutoff), Discounted(e, b[n], curve, cutoff));
    }
  }

  function ScaleOption(o: Option<real>, k: real): Option<real> {
    if o.Some? then Some(Scale(k, o.value)) else None
  }

  lemma PlusScales(a: Option<real>, b: Option<real>, k: real)
    ensures Plus(ScaleOption(a, k), ScaleOption(b, k)) == ScaleOption(Plus(a, b), k)
  {
    hide Scale;
    if a.Some? && b.Some? {
      Distribute(k, a.value, b.value);
    }
  }

  ghost predicate ScaledOption(a: Option<seq<Entry>>, b: Option<seq<Entry>>, k: real) {
    a.Some? == b.Some? && (a.Some? ==> Scaled(a.value, b.value, k))
  }

  lemma ScaledDiscount(kind: SwapType, a: seq<Entry>, b: seq<Entry>, ctx: Context, k: real)
    requires Scaled(a, b, k)
    ensures LegDiscount(kind, a, ctx) == LegDiscount(kind, b, ctx)
  {
    if a != [] {
      assert ScaledEntry(a[0], b[0], k);
    }
  }

  /** Legs with scaled cashflows, one direction and one factor have scaled values. */
  lemma LegPVFollows(e: Engine, s: Swap, t: Swap, ctx: Context, i: nat, k: real)
    requires ValidSwap(s) && ValidSwap(t) && i < |s.legs| == |t.legs| && t.kind == s.kind
    requires t.legs[i].direction == s.legs[i].direction && LegFactor(t, ctx, i) == LegFactor(s, ctx, i)
    requires ScaledOption(LegCashflows(e, t, ctx, i), LegCashflows(e, s, ctx, i), k)
    ensures LegPV(e, t, ctx, i) == ScaleOption(LegPV(e, s, ctx, i), k)
  {
    var a, b := LegCashflows(e, t, ctx, i), LegCashflows(e, s, ctx, i);
    hide LegCashflows, PresentValue, LegFactor, Signed, ScaledEntry, Scale;
    if b.Some? {
      ScaledDiscount(s.kind, a.value, b.value, ctx, k);
      hide LegDiscount, Scaled;
      var curve, factor := LegDiscount(s.kind, b.value, ctx), LegFactor(s, ctx, i);
      if curve.Some? {
        var cutoff := GetOr(ctx.valueDate, curve.value.asOf);
        PresentValueScales(e, a.value, b.value, curve.value, cutoff, k);
        var pv := PresentValue(e, b.value, curve.value, cutoff);
        assert LegLocalPV(e, s, ctx, i) == Some(pv) && LegLocalPV(e, t, ctx, i) == Some(Scale(k, pv));
        hide LegLocalPV;
        if factor.Some? {
          SignedScales(k, s.legs[i].direction, pv, factor.value);
        }
      }
    }
  }

  // ----- Scaling the notionals -----

  function ScaleLeg(l: Leg, k: real): Leg { l.(notional := Scale(k, l.notional)) }

  function ScaleSwap(s: Swap, k: real): (t: Swap)
    ensures ValidSwap(s) ==> ValidSwap(t)
  {
    var legs := seq(|s.legs|, i requires 0 <= i < |s.legs| => ScaleLeg(s.legs[i], k));
    assert forall l :: l in legs ==> exists m :: m in s.legs && l == ScaleLeg(m, k);
    s.(legs := legs)
  }

  lemma LegTermsScale(kind: SwapType, l: Leg, ctx: Context, i: nat, k: real)
    ensures var t := LegTerms(kind, l, ctx, i);
            LegTerms(kind, ScaleLeg(l, k), ctx, i) == if t.Some? then Some(ScaleTerms(t.value, k)) else None
  {
    hide ResolveProjection, LegIndex, Scale;
  }

  lemma LegCouponsScale(e: Engine, kind: SwapType, l: Leg, ctx: Context, i: nat, k: real)
    requires ValidLeg(l)
    ensures ValidLeg(ScaleLeg(l, k))
    ensures Scaled(LegCoupons(e, kind, ScaleLeg(l, k), ctx, i), LegCoupons(e, kind, l, ctx, i), k)
  {
    var t, u := LegTerms(kind, l, ctx, i), LegTerms(kind, ScaleLeg(l, k), ctx, i);
    LegTermsScale(kind, l, ctx, i, k);
    assert t.Some? ==> !l.Protection?;
    hide LegTerms, Scale, ScaleTerms, Coupons, CouponAmount, Scaled, ValidSchedule;
    if t.None? {
      EmptyScaled(k);
    } else {
      forall start, end
        ensures CouponAmount(e, u.value, start, end) == Scale(k, CouponAmount(e, t.value, start, end))
      {
        CouponAmountScales(e, t.value, k, start, end);
      }
      CouponsScale(e, t.value, u.value, k, l.schedule);
    }
  }

  /** Every leg's cashflows scale with the notionals, under every strategy. */
  lemma CashflowsScale(e: Engine, s: Swap, ctx: Context, i: nat, k: real)
    requires ValidSwap(s) && i < |s.legs|
    ensures ScaledOption(LegCashflows(e, ScaleSwap(s, k), ctx, i), LegCashflows(e, s, ctx, i), k)
  {
    var l := s.legs[i];
    assert ValidLeg(l);
    var m := ScaleLeg(l, k);
    assert ScaleSwap(s, k).legs[i] == m;
    LegCouponsScale(e, s.kind, l, ctx, i, k);
    hide Scale, LegCoupons, SurvivalWeighted, XccyCashflows, ProtectionAmount, DefaultProbability;
    if l.Protection? {
      ProtectionAmountScales(k, l.notional, l.recoveryRate, DefaultProbability(e, ctx, s.maturityDate));
    } else {
      XccyScales(l, m, LegCoupons(e, s.kind, m, ctx, i), LegCoupons(e, s.kind, l, ctx, i), k);
      SurvivalScales(e, ctx, LegCoupons(e, s.kind, m, ctx, i), LegCoupons(e, s.kind, l, ctx, i), k);
    }
  }

  /** Every leg's present value scales with the notionals. */
  lemma LegPVScales(e: Engine, s: Swap, ctx: Context, i: nat, k: real)
    requires ValidSwap(s) && i < |s.legs|
    ensures LegPV(e, ScaleSwap(s, k), ctx, i) == ScaleOption(LegPV(e, s, ctx, i), k)
  {
    CashflowsScale(e, s, ctx, i, k);
    hide LegCashflows, LegPV, FxFactor, Scale;
    LegPVFollows(e, s, ScaleSwap(s, k), ctx, i, k);
  }

  lemma {:induction false} NpvOfScales(e: Engine, s: Swap, t: Swap, ctx: Context, n: nat, k: real)
    requires ValidSwap(s) && ValidSwap(t) && n <= |s.legs| == |t.legs|
    requires forall i :: 0 <= i < n ==> LegPV(e, t, ctx, i) == ScaleOption(LegPV(e, s, ctx, i), k)
    ensures NpvOf(e, t, ctx, n) == ScaleOption(NpvOf(e, s, ctx, n), k)
  {
    hide LegPV;
    if n > 0 {
      NpvOfScales(e, s, t, ctx, n - 1, k);
      PlusScales(NpvOf(e, s, ctx, n - 1), LegPV(e, s, ctx, n - 1), k);
    }
  }

  /** Scaling every notional by k scales the NPV by k, for every swap type and context; it throws when the swap does. */
  lemma NpvScales(e: Engine, s: Swap, ctx: Context, k: real)
    requires ValidSwap(s)
    ensures Npv(e, ScaleSwap(s, k), ctx) == ScaleOption(Npv(e, s, ctx), k)
  {
    var t := ScaleSwap(s, k);
    forall i | 0 <= i < |s.legs|
      ensures LegPV(e, t, ctx, i) == ScaleOption(LegPV(e, s, ctx, i), k)
    {
      LegPVScales(e, s, ctx, i, k);
    }
    hide LegPV;
    NpvOfScales(e, s, t, ctx, |s.legs|, k);
  }

  // ----- Flipping the directions -----

  function FlipSwap(s: Swap): (t: Swap)
    ensures ValidSwap(s) ==> ValidSwap(t)
  {
    var legs := seq(|s.legs|, i requires 0 <= i < |s.legs| => s.legs[i].(direction := Opposite(s.legs[i].direction)));
    assert forall l :: l in legs ==> exists m :: m in s.legs && l == m.(direction := Opposite(m.direction));
    s.(legs := legs)
  }

  lemma CashflowsFlip(e: Engine, s: Swap, ctx: Context, i: nat)
    requires ValidSwap(s) && i < |s.legs|
    ensures LegCashflows(e, FlipSwap(s), ctx, i) == LegCashflows(e, s, ctx, i)
  {
    var l, m := s.legs[i], FlipSwap(s).legs[i];
    assert ValidLeg(l) && m == l.(direction := Opposite(l.direction));
    assert LegTerms(s.kind, m, ctx, i) == LegTerms(s.kind, l, ctx, i) by {
      hide ResolveProjection, LegIndex;
    }
    hide LegTerms, Coupons, SurvivalWeighted, ProtectionAmount, DefaultProbability, SortByDate, Tag, Principal, PairOf,
        Opposite;
    assert LegCoupons(e, s.kind, m, ctx, i) == LegCoupons(e, s.kind, l, ctx, i);
  }

  lemma SignedFlips(d: Direction, pv: real, factor: real)
    ensures Signed(Opposite(d), pv, factor) == Scale(-1.0, Signed(d, pv, factor))
  {
    assert DirectionSign(Opposite(d)) * pv == -(DirectionSign(d) * pv);
  }

  lemma LocalFlips(e: Engine, s: Swap, ctx: Context, i: nat)
    requires ValidSwap(s) && i < |s.legs|
    ensures LegLocalPV(e, FlipSwap(s), ctx, i) == LegLocalPV(e, s, ctx, i)
    ensures LegFactor(FlipSwap(s), ctx, i) == LegFactor(s, ctx, i)
  {
    CashflowsFlip(e, s, ctx, i);
    FlipKeepsCurrencies(s, ctx);
    assert LegCurrency(FlipSwap(s).legs[i]) == LegCurrency(s.legs[i]);
    hide LegCashflows, LegDiscount, ValueOn, FxFactor, FlipSwap, ReportingCcy, LegCurrency;
  }

  lemma FlipKeepsCurrencies(s: Swap, ctx: Context)
    ensures FlipSwap(s).kind == s.kind && |FlipSwap(s).legs| == |s.legs|
    ensures ReportingCcy(FlipSwap(s), ctx) == ReportingCcy(s, ctx)
  {
    hide Opposite;
  }

  lemma LegPVFlips(e: Engine, s: Swap, ctx: Context, i: nat)
    requires ValidSwap(s) && i < |s.legs|
    ensures LegPV(e, FlipSwap(s), ctx, i) == ScaleOption(LegPV(e, s, ctx, i), -1.0)
  {
    LocalFlips(e, s, ctx, i);
    hide LegLocalPV, LegFactor, Signed, Scale, Opposite;
    var pv, factor := LegLocalPV(e, s, ctx, i), LegFactor(s, ctx, i);
    if pv.Some? && factor.Some? {
      SignedFlips(s.legs[i].direction, pv.value, factor.value);
    }
  }

  /** Paying what was received and receiving what was paid negates the NPV. */
  lemma FlipNegates(e: Engine, s: Swap, ctx: Context)
    requires ValidSwap(s)
    ensures Npv(e, FlipSwap(s), ctx) == ScaleOption(Npv(e, s, ctx), -1.0)
  {
    var t := FlipSwap(s);
    forall i | 0 <= i < |s.legs|
      ensures LegPV(e, t, ctx, i) == ScaleOption(LegPV(e, s, ctx, i), -1.0)
    {
      LegPVFlips(e, s, ctx, i);
    }
    hide LegPV;
    NpvOfScales(e, s, t, ctx, |s.legs|, -1.0);
  }

  // ----- Order of cashflows -----

  lemma {:induction false} InsertValue(e: Engine, c: Entry, cfs: seq<Entry>, curve: Curve, cutoff: int)
    ensures PresentValue(e, Sorting.Insert(c, cfs, DateOf), curve, cutoff)
        == PresentValue(e, cfs, curve, cutoff) + Discounted(e, c, curve, cutoff)
  {
    hide Discounted;
    PresentValueAdds(e, [c], cfs, curve, cutoff);
    SingleValue(e, c, curve, cutoff);
    if cfs != [] && !(c.date < cfs[0].date) {
      InsertValue(e, c, cfs[1..], curve, cutoff);
      PresentValueAdds(e, [cfs[0]], Sorting.Insert(c, cfs[1..], DateOf), curve, cutoff);
      PresentValueAdds(e, [cfs[0]], cfs[1..], curve, cutoff);
      assert cfs == [cfs[0]] + cfs[1..];
    }
  }

  lemma SingleValue(e: Engine, c: Entry, curve: Curve, cutoff: int)
    ensures PresentValue(e, [c], curve, cutoff) == Discounted(e, c, curve, cutoff)
  {
    hide Discounted;
    assert [c][..0] == [];
  }

  lemma {:induction false} PresentValueAdds(e: Engine, a: seq<Entry>, b: seq<Entry>, curve: Curve, cutoff: int)
    ensures PresentValue(e, a + b, curve, cutoff)
            == PresentValue(e, a, curve, cutoff) + PresentValue(e, b, curve, cutoff)
  {
    hide Discounted;
    if b == [] {
      assert a + b == a;
    } else {
      var n := |b| - 1;
      PresentValueAdds(e, a, b[..n], curve, cutoff);
      assert (a + b)[..|a| + n] == a + b[..n];
    }
  }

  /** Sorting cashflows by date does not change what they are worth. */
  lemma {:induction false} SortedValue(e: Engine, cfs: seq<Entry>, curve: Curve, cutoff: int)
    ensures PresentValue(e, SortByDate(cfs), curve, cutoff) == PresentValue(e, cfs, curve, cutoff)
  {
    hide Discounted, Sorting.Insert;
    if cfs != [] {
      var n := |cfs| - 1;
      SortedValue(e, cfs[..n], curve, cutoff);
      InsertValue(e, cfs[n], SortByDate(cfs[..n]), curve, cutoff);
    }
  }

  lemma {:induction false} TaggedValue(e: Engine, cfs: seq<Entry>, ccy: string, curve: Curve, cutoff: int)
    ensures PresentValue(e, Tag(cfs, ccy), curve, cutoff) == PresentValue(e, cfs, curve, cutoff)
  {
    if cfs != [] {
      var n := |cfs| - 1;
      TaggedValue(e, cfs[..n], ccy, curve, cutoff);
      assert Tag(cfs, ccy)[..n] == Tag(cfs[..n], ccy);
    }
  }

  function PrincipalPV(e: Engine, l: Leg, curve: Curve, cutoff: int): real
    requires !l.Protection?
  {
    PresentValue(e, Principal(l.notional, l.schedule), curve, cutoff)
  }

  /** A cross-currency leg is worth its principal exchange plus its coupons. */
  lemma XccyValue(e: Engine, l: Leg, coupons: seq<Entry>, curve: Curve, valueDate: Option<int>)
    requires !l.Protection?
    ensures var cutoff := GetOr(valueDate, curve.asOf);
            ValueOn(e, XccyCashflows(l, coupons), Some(curve), valueDate)
            == Some(PrincipalPV(e, l, curve, cutoff) + PresentValue(e, coupons, curve, cutoff))
  {
    hide PresentValue, Principal, Tag, SortByDate;
    var cutoff := GetOr(valueDate, curve.asOf);
    var all := Principal(l.notional, l.schedule) + coupons;
    SortedValue(e, Tag(all, l.currency), curve, cutoff);
    TaggedValue(e, all, l.currency, curve, cutoff);
    PresentValueAdds(e, Principal(l.notional, l.schedule), coupons, curve, cutoff);
  }
}
