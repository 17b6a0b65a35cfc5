/**
 Swap pricing: the cashflows of each leg under the swap type's strategy, their present value, and the
 signed, converted sum. The curve lookups and the exponential are parameters of the engine, so every
 claim holds for whatever they compute.
 */
module Pricing {
  import opened Directions
  import opened Options
  import opened Calendar
  import opened Schedules
  import C = Compounding
  import Curves
  import Sorting

  // A record with its keys in insertion order.
  type Record<T> = seq<(string, T)>

  function Lookup<T>(r: Record<T>, key: string): Option<T> {
    if r == [] then None else if r[0].0 == key then Some(r[0].1) else Lookup(r[1..], key)
  }

  datatype CurveType = Discount | Projection
  datatype CurveBasis = Days360 | Days365
  datatype Curve = Curve(currency: string, curveType: CurveType, indexId: Option<string>, asOf: int,
                         pillars: seq<Curves.Pillar>, basis: CurveBasis)
  datatype Pair = Pair(discount: Curve, projections: Record<Curve>)

  datatype Engine = Engine(zero: (Curve, int) -> real, df: (Curve, int) -> real, exp: real -> real)

  datatype Context = Context(
    curve: Curve,
    index: Option<C.Index>,
    indicesByLeg: seq<Option<C.Index>>,
    observations: seq<C.Observation>,
    book: Option<Record<Pair>>,
    fxSpots: map<string, real>,
    reportingCcy: Option<string>,
    creditSpread: Option<real>,
    valueDate: Option<int>)

  datatype Leg =
    | Fixed(direction: Direction, currency: string, notional: real, rate: real, dayCount: DayCount, schedule: Schedule)
    | Float(direction: Direction, currency: string, notional: real, indexId: string, spread: real, dayCount: DayCount,
            schedule: Schedule)
    | Protection(direction: Direction, notional: real, recoveryRate: real)

  datatype SwapType = IRS | OIS | BASIS | XCCY | CDS
  datatype Swap = Swap(kind: SwapType, legs: seq<Leg>, maturityDate: int)

  datatype Entry = Entry(date: int, amount: real, currency: Option<string>)

  const DEFAULT_CREDIT_SPREAD := 0.02

  predicate ValidLeg(l: Leg) {
    l.Protection? || ValidSchedule(l.schedule)
  }

  predicate ValidSwap(s: Swap) {
    forall l :: l in s.legs ==> ValidLeg(l)
  }

  // ----- The engine of linear curves -----

  /** `interpolateZero`; 0 stands for the NaN of a segment without length. */
  function ZeroRate(c: Curve, tenorDays: int): real {
    if Curves.Defined(c.pillars, tenorDays as real) then Curves.Zero(c.pillars, tenorDays as real) else 0.0
  }

  /** `discountFactor`; 0 stands for an infinite factor. */
  function DiscountFactor(c: Curve, tenorDays: int): real {
    if tenorDays <= 0 then 1.0
    else
      var growth := 1.0 + ZeroRate(c, tenorDays) * (tenorDays as real / if c.basis.Days365? then 365.0 else 360.0);
      if growth == 0.0 then 0.0 else 1.0 / growth
  }

  function LinearEngine(exp: real -> real): Engine { Engine(ZeroRate, DiscountFactor, exp) }

  // ----- Curves of a context -----

  function MapCurves(r: Record<Curve>, f: Curve -> Curve): Record<Curve> {
    seq(|r|, i requires 0 <= i < |r| => (r[i].0, f(r[i].1)))
  }

  function MapPair(p: Pair, onDiscount: Curve -> Curve, onProjection: Curve -> Curve): Pair {
    Pair(onDiscount(p.discount), MapCurves(p.projections, onProjection))
  }

  /** The book with every discount curve and every projection replaced by its image. */
  function MapBook(book: Record<Pair>, onDiscount: Curve -> Curve, onProjection: Curve -> Curve): Record<Pair> {
    seq(|book|, i requires 0 <= i < |book| => (book[i].0, MapPair(book[i].1, onDiscount, onProjection)))
  }

  lemma {:induction false} MappedLookup(book: Record<Pair>, f: Curve -> Curve, g: Curve -> Curve, key: string)
    ensures Lookup(MapBook(book, f, g), key).Some? <==> Lookup(book, key).Some?
  {
    hide MapPair;
    if book != [] {
      MappedLookup(book[1..], f, g, key);
      assert MapBook(book, f, g)[1..] == MapBook(book[1..], f, g);
    }
  }

  function PairOf(ctx: Context, ccy: string): Option<Pair> {
    if ctx.book.Some? then Lookup(ctx.book.value, ccy) else None
  }

  /** Exact projection, else the currency's first one, else the context curve. */
  function ResolveProjection(ctx: Context, ccy: string, indexId: string): Curve {
    var pair := PairOf(ctx, ccy);
    if pair.None? then ctx.curve
    else if indexId != "" && Lookup(pair.value.projections, indexId).Some? then
      Lookup(pair.value.projections, indexId).value
    else if pair.value.projections != [] then pair.value.projections[0].1
    else ctx.curve
  }

  /** The discount curve of the context's own currency. */
  function DiscountCurve(ctx: Context): Curve {
    var pair := PairOf(ctx, ctx.curve.currency);
    if pair.Some? then pair.value.discount else ctx.curve
  }

  function LegIndex(ctx: Context, i: nat): Option<C.Index> {
    if i < |ctx.indicesByLeg| && ctx.indicesByLeg[i].Some? then ctx.indicesByLeg[i] else ctx.index
  }

  // ----- Coupons -----

  // What the periods of a schedule pay: a fixed rate, the forward rate of the period's middle, or
  // compounded fixings. A compounded coupon may carry no spread.
  datatype Terms =
    | FixedTerms(notional: real, dayCount: DayCount, rate: real)
    | ForwardTerms(notional: real, dayCount: DayCount, curve: Curve, spread: real)
    | CompoundedTerms(notional: real, dayCount: DayCount, curve: Curve, index: C.Index,
                      observations: seq<C.Observation>, addedSpread: Option<real>)

  /** Days from the curve's value date to the middle of the period, half days rounded up. */
  function MidTenor(curve: Curve, start: int, end: int): int { (start + end + 1) / 2 - curve.asOf }

  function ForwardAmount(notional: real, forward: real, spread: real, fraction: real): real {
    notional * (forward + spread) * fraction
  }

  function SpreadAmount(spread: real, notional: real, fraction: real): real { spread * notional * fraction }

  function ForwardOf(e: Engine, curve: Curve): C.Forward {
    C.Forward(curve.asOf, (tenor: int) => e.zero(curve, tenor))
  }

  function CouponAmount(e: Engine, t: Terms, start: Date, end: Date): real {
    match t
    case FixedTerms(notional, dayCount, rate) => Coupon(rate, notional, dayCount, start, end).amount
    case ForwardTerms(notional, dayCount, curve, spread) =>
      var forward := e.zero(curve, MidTenor(curve, DayNumber(start), DayNumber(end)));
      ForwardAmount(notional, forward, spread, YearFraction(start, end, dayCount))
    case CompoundedTerms(notional, dayCount, curve, index, observations, spread) =>
      var period := C.Period(DayNumber(start), DayNumber(end));
      var compounded := C.Coupon(ForwardOf(e, curve), index, observations, period, notional);
      if spread.None? then compounded
      else compounded + SpreadAmount(spread.value, notional, YearFraction(start, end, dayCount))
  }

  function CouponAt(e: Engine, t: Terms, start: Date, end: Date): Entry {
    Entry(DayNumber(end), CouponAmount(e, t, start, end), None)
  }

  /** The coupons of the periods of a schedule that end on these dates. */
  function CouponsOn(e: Engine, t: Terms, s: Schedule, dates: seq<Date>): seq<Entry> {
    seq(|dates|, i requires 0 <= i < |dates| => CouponAt(e, t, Prior(s, dates, i), dates[i]))
  }

  function Coupons(e: Engine, t: Terms, s: Schedule): seq<Entry>
    requires ValidSchedule(s)
  {
    CouponsOn(e, t, s, ScheduleDates(s))
  }

  /** The coupons of the first `n` periods. */
  ghost predicate PaidUpTo(e: Engine, t: Terms, s: Schedule, dates: seq<Date>, n: nat, cfs: seq<Entry>) {
    |cfs| == n <= |dates| && forall i :: 0 <= i < n ==> cfs[i] == CouponAt(e, t, Prior(s, dates, i), dates[i])
  }

  lemma PaidStep(e: Engine, t: Terms, s: Schedule, dates: seq<Date>, n: nat, cfs: seq<Entry>)
    requires PaidUpTo(e, t, s, dates, n, cfs) && n < |dates|
    ensures PaidUpTo(e, t, s, dates, n + 1, cfs + [CouponAt(e, t, Prior(s, dates, n), dates[n])])
  {
    hide CouponAt;
  }

  lemma PaidNone(e: Engine, t: Terms, s: Schedule, dates: seq<Date>)
    ensures PaidUpTo(e, t, s, dates, 0, [])
  {
  }

  lemma PaidAll(e: Engine, t: Terms, s: Schedule, cfs: seq<Entry>)
    requires ValidSchedule(s) && PaidUpTo(e, t, s, ScheduleDates(s), |ScheduleDates(s)|, cfs)
    ensures cfs == Coupons(e, t, s)
  {
    hide CouponAt, ScheduleDates;
  }

  lemma PriorStep(s: Schedule, dates: seq<Date>, i: nat)
    requires i < |dates|
    ensures Prior(s, dates, 0) == s.start && Prior(s, dates, i + 1) == dates[i]
  {
  }

  method ForwardCoupon(e: Engine, curve: Curve, spread: real, notional: real, dayCount: DayCount, periodStart: Date,
                       periodEnd: Date)
    returns (cf: Entry)
    ensures cf == CouponAt(e, ForwardTerms(notional, dayCount, curve, spread), periodStart, periodEnd)
  {
    hide DayNumber, YearFraction, ForwardAmount;
    var tenorDays := (DayNumber(periodStart) + DayNumber(periodEnd) + 1) / 2 - curve.asOf;
    var forwardRate := e.zero(curve, tenorDays);
    var yf := YearFraction(periodStart, periodEnd, dayCount);
    cf := Entry(DayNumber(periodEnd), ForwardAmount(notional, forwardRate, spread, yf), None);
  }

  method CalcFloatCashflows(e: Engine, curve: Curve, spread: real, notional: real, dayCount: DayCount, s: Schedule)
    returns (cfs: seq<Entry>)
    requires ValidSchedule(s)
    ensures cfs == Coupons(e, ForwardTerms(notional, dayCount, curve, spread), s)
  {
    var paymentDates := GenerateScheduleDates(s.start, s.end, s.frequency);
    hide *;
    ghost var terms := ForwardTerms(notional, dayCount, curve, spread);
    PaidNone(e, terms, s, paymentDates);
    if paymentDates != [] { PriorStep(s, paymentDates, 0); }
    cfs := [];
    var periodStart := s.start;
    for i := 0 to |paymentDates|
      invariant i < |paymentDates| ==> periodStart == Prior(s, paymentDates, i)
      invariant PaidUpTo(e, terms, s, paymentDates, i, cfs)
    {
      var cf := ForwardCoupon(e, curve, spread, notional, dayCount, periodStart, paymentDates[i]);
      PaidStep(e, terms, s, paymentDates, i, cfs);
      PriorStep(s, paymentDates, i);
      cfs := cfs + [cf];
      periodStart := paymentDates[i];
    }
    PaidAll(e, terms, s, cfs);
  }

  method CompoundedCoupon(e: Engine, curve: Curve, index: C.Index, observations: seq<C.Observation>,
                          spread: Option<real>, notional: real, dayCount: DayCount, periodStart: Date, periodEnd: Date)
    returns (cf: Entry)
    ensures cf
            == CouponAt(e, CompoundedTerms(notional, dayCount, curve, index, observations, spread), periodStart,
                        periodEnd)
  {
    hide DayNumber, YearFraction, SpreadAmount, C.Coupon, ForwardOf;
    var amount := C.CalcCompoundedCashflow(ForwardOf(e, curve), index, observations,
                                           C.Period(DayNumber(periodStart), DayNumber(periodEnd)), notional);
    if spread.Some? {
      amount := amount + SpreadAmount(spread.value, notional, YearFraction(periodStart, periodEnd, dayCount));
    }
    cf := Entry(DayNumber(periodEnd), amount, None);
  }

  /** The coupon loop of the IRS (no spread), basis and cross-currency strategies. */
  method CompoundedCoupons(e: Engine, curve: Curve, index: C.Index, observations: seq<C.Observation>,
                           spread: Option<real>, notional: real, dayCount: DayCount, s: Schedule)
    returns (out: seq<Entry>)
    requires ValidSchedule(s)
    ensures out == Coupons(e, CompoundedTerms(notional, dayCount, curve, index, observations, spread), s)
  {
    var dates := GenerateScheduleDates(s.start, s.end, s.frequency);
    hide *;
    ghost var terms := CompoundedTerms(notional, dayCount, curve, index, observations, spread);
    PaidNone(e, terms, s, dates);
    if dates != [] { PriorStep(s, dates, 0); }
    out := [];
    var periodStart := s.start;
    for i := 0 to |dates|
      invariant i < |dates| ==> periodStart == Prior(s, dates, i)
      invariant PaidUpTo(e, terms, s, dates, i, out)
    {
      var cf := CompoundedCoupon(e, curve, index, observations, spread, notional, dayCount, periodStart, dates[i]);
      PaidStep(e, terms, s, dates, i, out);
      PriorStep(s, dates, i);
      out := out + [cf];
      periodStart := dates[i];
    }
    PaidAll(e, terms, s, out);
  }

  // ----- Strategies -----

  function FloatTerms(l: Leg, ctx: Context, index: Option<C.Index>, withSpread: bool): Terms
    requires l.Float?
  {
    var curve := ResolveProjection(ctx, l.currency, l.indexId);
    if index.None? then ForwardTerms(l.notional, l.dayCount, curve, l.spread)
    else
      CompoundedTerms(l.notional, l.dayCount, curve, index.value, ctx.observations,
                      if withSpread then Some(l.spread) else None)
  }

  /** The coupons a strategy pays on a leg, if any. The IRS strategy leaves the spread out of compounded coupons. */
  function LegTerms(kind: SwapType, l: Leg, ctx: Context, i: nat): Option<Terms> {
    match l
    case Fixed(_, _, notional, rate, dayCount, _) =>
      if kind.BASIS? then None else Some(FixedTerms(notional, dayCount, rate))
    case Float(_, _, _, _, _, _, _) =>
      if kind.CDS? then None
      else if kind.IRS? || kind.OIS? then Some(FloatTerms(l, ctx, ctx.index, false))
      else Some(FloatTerms(l, ctx, LegIndex(ctx, i), true))
    case Protection(_, _, _) => None
  }

  function LegCoupons(e: Engine, kind: SwapType, l: Leg, ctx: Context, i: nat): seq<Entry>
    requires ValidLeg(l)
  {
    var t := LegTerms(kind, l, ctx, i);
    if t.None? then [] else Coupons(e, t.value, l.schedule)
  }

  function Hazard(ctx: Context): real { GetOr(ctx.creditSpread, DEFAULT_CREDIT_SPREAD) }

  function Decay(hazard: real, years: real): real { -hazard * years }

  function Survival(e: Engine, ctx: Context, date: int): real {
    e.exp(Decay(Hazard(ctx), (date - ctx.curve.asOf) as real / 365.0))
  }

  function Times(cf: Entry, factor: real): Entry { cf.(amount := cf.amount * factor) }

  /** Fixed coupons of a CDS, weighted by survival to their date. */
  function SurvivalWeighted(e: Engine, ctx: Context, cfs: seq<Entry>): seq<Entry> {
    seq(|cfs|, i requires 0 <= i < |cfs| => Times(cfs[i], Survival(e, ctx, cfs[i].date)))
  }

  function ProtectionAmount(notional: real, recoveryRate: real, defaultProbability: real): real {
    notional * (1.0 - recoveryRate) * defaultProbability
  }

  function DefaultProbability(e: Engine, ctx: Context, maturity: int): real {
    var years := if maturity < ctx.curve.asOf then 0.0 else (maturity - ctx.curve.asOf) as real / 365.0;
    1.0 - e.exp(Decay(Hazard(ctx), years))
  }

  function Principal(notional: real, s: Schedule): seq<Entry> {
    [Entry(DayNumber(s.start), -notional, None), Entry(DayNumber(s.end), notional, None)]
  }

  function Tag(cfs: seq<Entry>, ccy: string): seq<Entry> {
    seq(|cfs|, i requires 0 <= i < |cfs| => cfs[i].(currency := Some(ccy)))
  }

  function DateOf(cf: Entry): int { cf.date }

  function SortByDate(cfs: seq<Entry>): seq<Entry> { Sorting.SortBy(cfs, DateOf) }

  /** Principal exchange and coupons, tagged with the leg's currency. */
  function XccyCashflows(l: Leg, coupons: seq<Entry>): seq<Entry>
    requires !l.Protection?
  {
    SortByDate(Tag(Principal(l.notional, l.schedule) + coupons, l.currency))
  }

  /** The cashflows of one leg under the swap's strategy; None where the strategy throws. */
  function LegCashflows(e: Engine, s: Swap, ctx: Context, i: nat): Option<seq<Entry>>
    requires ValidSwap(s) && i < |s.legs|
  {
    var l := s.legs[i];
    assert ValidLeg(l);
    if s.kind.XCCY? then
      if l.Protection? then Some([])
      else if PairOf(ctx, l.currency).None? then None
      else Some(XccyCashflows(l, LegCoupons(e, s.kind, l, ctx, i)))
    else if s.kind.CDS? then
      if l.Protection? then
        var amount := ProtectionAmount(l.notional, l.recoveryRate, DefaultProbability(e, ctx, s.maturityDate));
        Some([Entry(s.maturityDate, amount, None)])
      else Some(SurvivalWeighted(e, ctx, LegCoupons(e, s.kind, l, ctx, i)))
    else Some(LegCoupons(e, s.kind, l, ctx, i))
  }

  // ----- Present value -----

  function Discounted(e: Engine, cf: Entry, curve: Curve, cutoff: int): real {
    if cf.date <= cutoff then 0.0 else cf.amount * e.df(curve, cf.date - curve.asOf)
  }

  /** Cashflows on or before the cutoff are skipped, the rest are discounted. */
  function PresentValue(e: Engine, cfs: seq<Entry>, curve: Curve, cutoff: int): real {
    if cfs == [] then 0.0
    else PresentValue(e, cfs[..|cfs| - 1], curve, cutoff) + Discounted(e, cfs[|cfs| - 1], curve, cutoff)
  }

  /** The curve a leg's cashflows are discounted on; None where the strategy throws. */
  function LegDiscount(kind: SwapType, cfs: seq<Entry>, ctx: Context): Option<Curve> {
    match kind
    case XCCY =>
      if cfs == [] then Some(ctx.curve)
      else if cfs[0].currency.None? || PairOf(ctx, cfs[0].currency.value).None? then None
      else Some(PairOf(ctx, cfs[0].currency.value).value.discount)
    case CDS => Some(ctx.curve)
    case _ => Some(DiscountCurve(ctx))
  }

  function ValueOn(e: Engine, cfs: seq<Entry>, curve: Option<Curve>, valueDate: Option<int>): Option<real> {
    if curve.None? then None else Some(PresentValue(e, cfs, curve.value, GetOr(valueDate, curve.value.asOf)))
  }

  function LegLocalPV(e: Engine, s: Swap, ctx: Context, i: nat): Option<real>
    requires ValidSwap(s) && i < |s.legs|
  {
    var cfs := LegCashflows(e, s, ctx, i);
    if cfs.None? then None else ValueOn(e, cfs.value, LegDiscount(s.kind, cfs.value, ctx), ctx.valueDate)
  }

  // ----- Signs and currencies -----

  function DirectionSign(d: Direction): real { if d.Pay? then -1.0 else 1.0 }

  function LegCurrency(l: Leg): Option<string> {
    if l.Protection? then None else Some(l.currency)
  }

  /** None where the source throws for a swap without legs. */
  function ReportingCcy(s: Swap, ctx: Context): Option<string> {
    if ctx.reportingCcy.Some? then ctx.reportingCcy
    else if s.legs == [] then None
    else Some(GetOr(LegCurrency(s.legs[0]), "USD"))
  }

  /** Direct spot, else the inverse one; None where neither is seeded, or seeded as 0. */
  function FxFactor(from: string, to: string, spots: map<string, real>): Option<real> {
    if from == to then Some(1.0)
    else if from + to in spots && spots[from + to] != 0.0 then Some(spots[from + to])
    else if to + from in spots && spots[to + from] != 0.0 then Some(1.0 / spots[to + from])
    else None
  }

  /** What a leg's present value is multiplied by to reach the reporting currency. */
  function LegFactor(s: Swap, ctx: Context, i: nat): Option<real>
    requires i < |s.legs|
  {
    var reporting := ReportingCcy(s, ctx);
    if s.kind.XCCY? && reporting.Some?
    then FxFactor(GetOr(LegCurrency(s.legs[i]), reporting.value), reporting.value, ctx.fxSpots)
    else Some(1.0)
  }

  function Signed(d: Direction, pv: real, factor: real): real { DirectionSign(d) * pv * factor }

  /** A leg's contribution, signed by direction and converted for cross-currency swaps. */
  function LegPV(e: Engine, s: Swap, ctx: Context, i: nat): Option<real>
    requires ValidSwap(s) && i < |s.legs|
  {
    var pv, factor := LegLocalPV(e, s, ctx, i), LegFactor(s, ctx, i);
    if pv.None? || factor.None? then None else Some(Signed(s.legs[i].direction, pv.value, factor.value))
  }

  function Plus(a: Option<real>, b: Option<real>): Option<real> {
    if a.None? || b.None? then None else Some(a.value + b.value)
  }

  /** The running sum of `priceWithContext` over the first `n` legs. */
  function NpvOf(e: Engine, s: Swap, ctx: Context, n: nat): Option<real>
    requires ValidSwap(s) && n <= |s.legs|
  {
    if n == 0 then Some(0.0) else Plus(NpvOf(e, s, ctx, n - 1), LegPV(e, s, ctx, n - 1))
  }

  /** `priceWithContext`; None where it throws. */
  function Npv(e: Engine, s: Swap, ctx: Context): Option<real>
    requires ValidSwap(s)
  {
    if ReportingCcy(s, ctx).None? then None else NpvOf(e, s, ctx, |s.legs|)
  }

  // ----- When pricing throws -----

  predicate LegPriceable(s: Swap, ctx: Context, i: nat)
    requires i < |s.legs|
  {
    s.kind.XCCY? ==> (s.legs[i].Protection? || PairOf(ctx, s.legs[i].currency).Some?) && LegFactor(s, ctx, i).Some?
  }

  /** A reporting currency, and for cross-currency swaps curves and a spot rate for every leg. */
  ghost predicate Priceable(s: Swap, ctx: Context) {
    ReportingCcy(s, ctx).Some? && forall i :: 0 <= i < |s.legs| ==> LegPriceable(s, ctx, i)
  }

  lemma XccyTagged(l: Leg, coupons: seq<Entry>)
    requires !l.Protection?
    ensures XccyCashflows(l, coupons) != [] && XccyCashflows(l, coupons)[0].currency == Some(l.currency)
  {
    var all := Tag(Principal(l.notional, l.schedule) + coupons, l.currency);
    Sorting.SortSorts(all, DateOf);
    var sorted := SortByDate(all);
    assert |multiset(sorted)| == |sorted| && |multiset(all)| == |all|;
    assert sorted[0] in multiset(all);
    assert sorted[0] in all;
  }

  lemma LegPricesIff(e: Engine, s: Swap, ctx: Context, i: nat)
    requires ValidSwap(s) && i < |s.legs|
    ensures LegPV(e, s, ctx, i).Some? <==> LegPriceable(s, ctx, i)
  {
    var l := s.legs[i];
    assert ValidLeg(l);
    if s.kind.XCCY? && !l.Protection? && PairOf(ctx, l.currency).Some? {
      XccyTagged(l, LegCoupons(e, s.kind, l, ctx, i));
    }
  }

  lemma {:induction false} NpvOfIff(e: Engine, s: Swap, ctx: Context, n: nat)
    requires ValidSwap(s) && n <= |s.legs|
    ensures NpvOf(e, s, ctx, n).Some? <==> forall i :: 0 <= i < n ==> LegPriceable(s, ctx, i)
  {
    hide LegPV, LegPriceable;
    if n > 0 {
      NpvOfIff(e, s, ctx, n - 1);
      LegPricesIff(e, s, ctx, n - 1);
    }
  }

  /** Pricing throws exactly when a lookup it needs is missing, whatever the curves say. */
  lemma PricesIff(e: Engine, s: Swap, ctx: Context)
    requires ValidSwap(s)
    ensures Npv(e, s, ctx).Some? <==> Priceable(s, ctx)
  {
    hide LegPriceable;
    NpvOfIff(e, s, ctx, |s.legs|);
  }

  /** One reporting currency, the same spots, and curves for the same currencies. */
  ghost predicate SameShape(a: Context, b: Context) {
    && a.reportingCcy == b.reportingCcy && a.fxSpots == b.fxSpots
    && forall ccy :: PairOf(a, ccy).Some? <==> PairOf(b, ccy).Some?
  }

  /** Contexts of one shape price the same swaps. */
  lemma SameShapePriceable(s: Swap, a: Context, b: Context)
    requires SameShape(a, b)
    ensures Priceable(s, a) <==> Priceable(s, b)
  {
    hide PairOf, FxFactor, LegCurrency;
    assert ReportingCcy(s, a) == ReportingCcy(s, b);
    hide ReportingCcy;
    forall i | 0 <= i < |s.legs|
      ensures LegPriceable(s, a, i) <==> LegPriceable(s, b, i)
    {
    }
    hide LegPriceable;
  }
}
