/** When the key-rate sensitivities of a swap can be computed at all. */
module KeyRates {
  import opened Directions
  import opened Options
  import opened Pricing
  import opened Bumps
  import opened Hedging
  import opened Valuation
  import Curves

  ghost predicate UniqueKeys<T(!new)>(r: Record<T>) {
    forall i, j :: 0 <= i < j < |r| ==> r[i].0 != r[j].0
  }

  /** Every projection curve is filed under its own, non-empty index id. */
  ghost predicate WellKeyedPair(p: Pair) {
    && UniqueKeys(p.projections)
    && forall i :: 0 <= i < |p.projections| ==> FiledUnderItself(p.projections[i])
  }

  predicate FiledUnderItself(entry: (string, Curve)) {
    entry.0 != "" && entry.1.indexId == Some(entry.0)
  }

  ghost predicate HasTenor(c: Curve, tenor: real) {
    exists i :: 0 <= i < |c.pillars| && c.pillars[i].tenor == tenor
  }

  lemma ShiftsIff(c: Curve, tenor: real, bp: real)
    ensures ShiftOne(c, tenor, bp).Some? <==> HasTenor(c, tenor)
  {
    var i := Curves.FindIndex(c.pillars, tenor, 0);
  }

  lemma {:induction false} LookupFinds<T(!new)>(r: Record<T>, i: nat)
    requires UniqueKeys(r) && i < |r|
    ensures Lookup(r, r[i].0) == Some(r[i].1)
  {
    if i > 0 {
      LookupFinds(r[1..], i - 1);
    }
  }

  lemma {:induction false} ReplaceKeeps<T>(r: Record<T>, key: string, v: T, other: string)
    ensures Lookup(Replace(r, key, v), other).Some? <==> Lookup(r, other).Some?
  {
    if r != [] && r[0].0 != key {
      ReplaceKeeps(r[1..], key, v, other);
    }
  }

  lemma {:induction false} SelectorHasPair(book: Record<Pair>, relevant: set<string>, sel: Selector) returns (i: nat)
    requires sel in BookSelectors(book, relevant)
    ensures i < |book| && sel in PairSelectors(book[i].0, book[i].1)
  {
    hide PairSelectors;
    var n := |book| - 1;
    if sel in BookSelectors(book[..n], relevant) {
      i := SelectorHasPair(book[..n], relevant, sel);
    } else {
      i := n;
    }
  }

  lemma CurveSelectorHasTenor(c: Curve, ccy: string, t: CurveType, indexId: Option<string>, sel: Selector)
    requires sel in CurveSelectors(c, ccy, t, indexId)
    ensures sel.currency == ccy && sel.curveType == t && sel.indexId == indexId && HasTenor(c, sel.tenor)
  {
  }

  lemma {:induction false} SelectorHasProjection(r: Record<Curve>, ccy: string, sel: Selector) returns (j: nat)
    requires sel in ProjectionSelectors(r, ccy)
    ensures j < |r| && sel.currency == ccy && sel.curveType.Projection? && sel.indexId == r[j].1.indexId
        && HasTenor(r[j].1, sel.tenor)
  {
    hide CurveSelectors, HasTenor;
    var n := |r| - 1;
    if sel in ProjectionSelectors(r[..n], ccy) {
      j := SelectorHasProjection(r[..n], ccy, sel);
    } else {
      j := n;
      CurveSelectorHasTenor(r[n].1, ccy, Projection, r[n].1.indexId, sel);
    }
  }

  lemma {:induction false} ShiftEachIff(r: Record<Curve>, tenor: real, bp: real)
    ensures ShiftEach(r, tenor, bp).Some? <==> forall i :: 0 <= i < |r| ==> HasTenor(r[i].1, tenor)
  {
    hide ShiftOne, HasTenor;
    if r != [] {
      ShiftsIff(r[0].1, tenor, bp);
      ShiftEachIff(r[1..], tenor, bp);
      assert forall i :: 0 < i < |r| ==> r[i] == r[1..][i - 1];
    }
  }

  /**
   The projections of a pair that a selector names have its tenor: the one filed under its index id, or all of them.
   */
  ghost predicate ProjectionsHaveTenor(p: Pair, sel: Selector) {
    if sel.indexId.None? || sel.indexId.value == "" then
      forall i :: 0 <= i < |p.projections| ==> HasTenor(p.projections[i].1, sel.tenor)
    else
      var proj := Lookup(p.projections, sel.indexId.value);
      proj.Some? && HasTenor(proj.value, sel.tenor)
  }

  /** An enumerated pillar of a pair can be moved exactly when the projections it names have its tenor. */
  lemma PairBumpsIff(p: Pair, ccy: string, sel: Selector, bp: real)
    requires sel in PairSelectors(ccy, p)
    ensures sel.currency == ccy
    ensures BumpPair(p, sel, bp).Some? <==> (sel.curveType.Projection? ==> ProjectionsHaveTenor(p, sel))
  {
    hide CurveSelectors, ProjectionSelectors, HasTenor, ShiftOne, ShiftEach;
    ShiftEachIff(p.projections, sel.tenor, bp);
    if sel in CurveSelectors(p.discount, ccy, Discount, None) {
      CurveSelectorHasTenor(p.discount, ccy, Discount, None, sel);
      ShiftsIff(p.discount, sel.tenor, bp);
    } else {
      var j := SelectorHasProjection(p.projections, ccy, sel);
      if sel.indexId.Some? && Lookup(p.projections, sel.indexId.value).Some? {
        ShiftsIff(Lookup(p.projections, sel.indexId.value).value, sel.tenor, bp);
      }
    }
  }

  /** In a well-keyed pair they always do. */
  lemma WellKeyedHaveTenor(p: Pair, ccy: string, sel: Selector)
    requires WellKeyedPair(p) && sel in PairSelectors(ccy, p) && sel.curveType.Projection?
    ensures ProjectionsHaveTenor(p, sel)
  {
    hide CurveSelectors, ProjectionSelectors, HasTenor;
    if sel in CurveSelectors(p.discount, ccy, Discount, None) {
      CurveSelectorHasTenor(p.discount, ccy, Discount, None, sel);
    } else {
      var j := SelectorHasProjection(p.projections, ccy, sel);
      assert FiledUnderItself(p.projections[j]);
      LookupFinds(p.projections, j);
    }
  }

  /**
   The curves that moving this pillar touches have its tenor: the projections it names, and the context curve where it
   mirrors.
   */
  ghost predicate Bumpable(ctx: Context, sel: Selector) {
    && (sel.curveType.Projection? && PairOf(ctx, sel.currency).Some? ==>
          ProjectionsHaveTenor(PairOf(ctx, sel.currency).value, sel))
    && (Mirrors(ctx, sel) ==> HasTenor(ctx.curve, sel.tenor))
  }

  ghost predicate UniqueBook(ctx: Context) { ctx.book.Some? ==> UniqueKeys(ctx.book.value) }

  lemma EnumeratedBumpsIff(s: Swap, ctx: Context, sel: Selector, bp: real)
    requires UniqueBook(ctx) && sel in Selectors(s, ctx)
    ensures BumpPillar(ctx, sel, bp).Some? <==> Bumpable(ctx, sel)
  {
    hide ShiftOne, HasTenor, BumpPair, PairSelectors, BookSelectors, CurveSelectors, Relevant, ProjectionsHaveTenor,
         Lookup;
    ShiftsIff(ctx.curve, sel.tenor, bp);
    if ctx.book.Some? {
      var i := SelectorHasPair(ctx.book.value, Relevant(s, ctx), sel);
      PairBumpsIff(ctx.book.value[i].1, ctx.book.value[i].0, sel, bp);
      LookupFinds(ctx.book.value, i);
    } else {
      CurveSelectorHasTenor(ctx.curve, ctx.curve.currency, ctx.curve.curveType, None, sel);
    }
  }

  /** A bumped context prices what the original one does. */
  lemma BumpedPriceable(s: Swap, ctx: Context, sel: Selector, bp: real)
    requires BumpPillar(ctx, sel, bp).Some?
    ensures Priceable(s, BumpPillar(ctx, sel, bp).value) <==> Priceable(s, ctx)
  {
    var bumped := BumpPillar(ctx, sel, bp).value;
    forall ccy
      ensures PairOf(bumped, ccy).Some? <==> PairOf(ctx, ccy).Some?
    {
      if ctx.book.Some? {
        var entry := Lookup(ctx.book.value, sel.currency);
        ReplaceKeeps(ctx.book.value, sel.currency, BumpPair(entry.value, sel, bp).value, ccy);
      }
    }
    BumpKeeps(ctx, sel, bp);
    hide Priceable, PairOf, BumpPillar;
    SameShapePriceable(s, bumped, ctx);
  }

  lemma PillarDv01Iff(e: Engine, s: Swap, ctx: Context, sel: Selector)
    requires ValidSwap(s) && Priceable(s, ctx) && UniqueBook(ctx) && sel in Selectors(s, ctx)
    ensures PillarDv01(e, s, ctx, sel).Some? <==> Bumpable(ctx, sel)
  {
    hide Priceable, Npv, BumpPillar, Bumpable, Selectors, UniqueBook;
    forall bp
      ensures BumpedNpv(e, s, ctx, sel, bp).Some? <==> Bumpable(ctx, sel)
    {
      EnumeratedBumpsIff(s, ctx, sel, bp);
      if BumpPillar(ctx, sel, bp).Some? {
        BumpedPriceable(s, ctx, sel, bp);
        PricesIff(e, s, BumpPillar(ctx, sel, bp).value);
      }
    }
    hide BumpedNpv;
  }

  lemma {:induction false} PillarDv01sIff(e: Engine, s: Swap, ctx: Context, sels: seq<Selector>)
    requires ValidSwap(s)
    ensures PillarDv01s(e, s, ctx, sels).Some? <==> forall i :: 0 <= i < |sels| ==> PillarDv01(e, s, ctx, sels[i]).Some?
  {
    hide PillarDv01;
    if sels != [] {
      PillarDv01sIff(e, s, ctx, sels[1..]);
    }
  }

  /** `keyRateDv01` of a priceable swap throws exactly when a curve that one of its bumps touches lacks the tenor. */
  lemma KeyRatesIff(e: Engine, s: Swap, ctx: Context)
    requires ValidSwap(s) && Priceable(s, ctx) && UniqueBook(ctx)
    ensures var sels := Selectors(s, ctx);
            PillarDv01s(e, s, ctx, sels).Some? <==> forall i :: 0 <= i < |sels| ==> Bumpable(ctx, sels[i])
  {
    hide *;
    var sels := Selectors(s, ctx);
    PillarDv01sIff(e, s, ctx, sels);
    forall i | 0 <= i < |sels|
      ensures PillarDv01(e, s, ctx, sels[i]).Some? <==> Bumpable(ctx, sels[i])
    {
      PillarDv01Iff(e, s, ctx, sels[i]);
    }
  }

  const SHORT := Curve("USD", Discount, None, 0, [Curves.Pillar(30.0, 0.05)], Days360)
  const LONG := Curve("USD", Discount, None, 0, [Curves.Pillar(30.0, 0.05), Curves.Pillar(60.0, 0.05)], Days360)
  const MISMATCHED := Context(SHORT, None, [], [], Some([("USD", Pair(LONG, []))]), map[], Some("USD"), None, None)
  const COVER := Swap(CDS, [Protection(Pay, 100.0, 0.4)], 365)

  lemma MismatchedSelectors()
    ensures Selectors(COVER, MISMATCHED)
            == [Selector("USD", Discount, 30.0, None), Selector("USD", Discount, 60.0, None)]
  {
    assert SwapCurrencies(COVER.legs) == {};
    assert ProjectionSelectors([], "USD") == [];
    assert BookSelectors([], {"USD"}) == [];
    var book := MISMATCHED.book.value;
    assert book[..0] == [] && Relevant(COVER, MISMATCHED) == {"USD"};
    assert BookSelectors(book, {"USD"}) == PairSelectors("USD", Pair(LONG, []));
  }

  /** With a context curve one pillar shorter than its book curve, the swap prices but its key rates throw. */
  lemma KeyRatesThrow(e: Engine)
    ensures ValidSwap(COVER) && Npv(e, COVER, MISMATCHED).Some?
    ensures PillarDv01s(e, COVER, MISMATCHED, Selectors(COVER, MISMATCHED)).None?
  {
    MismatchedSelectors();
    var sel := Selectors(COVER, MISMATCHED)[1];
    assert Mirrors(MISMATCHED, sel) && !HasTenor(MISMATCHED.curve, sel.tenor);
    assert !Bumpable(MISMATCHED, sel);
    assert Priceable(COVER, MISMATCHED);
    hide Npv, PillarDv01s, Bumpable, Selectors, Priceable;
    PricesIff(e, COVER, MISMATCHED);
    KeyRatesIff(e, COVER, MISMATCHED);
  }

  // ----- What a projection bump can move -----

  lemma {:induction false} LookupReplaced<T>(r: Record<T>, key: string, v: T, other: string)
    ensures Lookup(Replace(r, key, v), other)
            == if other == key && Lookup(r, key).Some? then Some(v) else Lookup(r, other)
  {
    if r != [] && r[0].0 != key {
      LookupReplaced(r[1..], key, v, other);
    }
  }

  /** The leg projects on a curve of the book that is filed under its own index. */
  predicate ProjectsExactly(ctx: Context, l: Leg)
    requires l.Float?
  {
    && l.indexId != ""
    && PairOf(ctx, l.currency).Some?
    && Lookup(PairOf(ctx, l.currency).value.projections, l.indexId).Some?
  }

  /** A named projection pillar of another index, or of another currency. */
  predicate Elsewhere(sel: Selector, l: Leg)
    requires l.Float?
  {
    && sel.curveType.Projection? && sel.indexId.Some? && sel.indexId.value != ""
    && (sel.currency != l.currency || sel.indexId.value != l.indexId)
  }

  lemma BumpedPair(ctx: Context, sel: Selector, bp: real, ccy: string)
    requires BumpPillar(ctx, sel, bp).Some? && ctx.book.Some? && sel.curveType.Projection?
    ensures var bumped := BumpPillar(ctx, sel, bp).value;
            && PairOf(bumped, ccy).Some? == PairOf(ctx, ccy).Some?
            && (PairOf(ctx, ccy).Some? ==> PairOf(bumped, ccy).value.discount == PairOf(ctx, ccy).value.discount)
            && (ccy != sel.currency ==> PairOf(bumped, ccy) == PairOf(ctx, ccy))
  {
    var before := Lookup(ctx.book.value, sel.currency).value;
    var pair := BumpPair(before, sel, bp).value;
    hide BumpProjections;
    LookupReplaced(ctx.book.value, sel.currency, pair, ccy);
  }

  lemma BumpedProjection(ctx: Context, sel: Selector, bp: real, l: Leg)
    requires BumpPillar(ctx, sel, bp).Some? && l.Float? && ProjectsExactly(ctx, l) && Elsewhere(sel, l)
    ensures ResolveProjection(BumpPillar(ctx, sel, bp).value, l.currency, l.indexId)
        == ResolveProjection(ctx, l.currency, l.indexId)
  {
    BumpedPair(ctx, sel, bp, l.currency);
    if l.currency == sel.currency {
      var pair := Lookup(ctx.book.value, sel.currency).value;
      var proj := Lookup(pair.projections, sel.indexId.value).value;
      LookupReplaced(pair.projections, sel.indexId.value, ShiftOne(proj, sel.tenor, bp).value, l.indexId);
      LookupReplaced(ctx.book.value, sel.currency, BumpPair(pair, sel, bp).value, sel.currency);
    }
  }

  lemma BumpKeeps(ctx: Context, sel: Selector, bp: real)
    requires BumpPillar(ctx, sel, bp).Some?
    ensures var bumped := BumpPillar(ctx, sel, bp).value;
            bumped == ctx.(curve := bumped.curve, book := bumped.book)
            && bumped.curve.currency == ctx.curve.currency && bumped.book.Some? == ctx.book.Some?
  {
    hide BumpPair, Replace, Lookup;
  }

  lemma CouponsUnmoved(e: Engine, s: Swap, ctx: Context, i: nat, sel: Selector, bp: real)
    requires ValidSwap(s) && i < |s.legs| && BumpPillar(ctx, sel, bp).Some?
    requires s.legs[i].Float? ==> ProjectsExactly(ctx, s.legs[i]) && Elsewhere(sel, s.legs[i])
    ensures ValidLeg(s.legs[i])
    ensures LegCoupons(e, s.kind, s.legs[i], BumpPillar(ctx, sel, bp).value, i)
            == LegCoupons(e, s.kind, s.legs[i], ctx, i)
  {
    var l, bumped := s.legs[i], BumpPillar(ctx, sel, bp).value;
    assert ValidLeg(l);
    BumpKeeps(ctx, sel, bp);
    if l.Float? {
      BumpedProjection(ctx, sel, bp, l);
    }
    hide ResolveProjection, BumpPillar, Coupons, ValidSwap, ProjectsExactly;
    assert LegTerms(s.kind, l, bumped, i) == LegTerms(s.kind, l, ctx, i);
    hide LegTerms;
  }

  lemma CashflowsUnmoved(e: Engine, s: Swap, ctx: Context, i: nat, sel: Selector, bp: real)
    requires ValidSwap(s) && i < |s.legs| && BumpPillar(ctx, sel, bp).Some? && sel.curveType.Projection?
    requires s.legs[i].Float? ==> ProjectsExactly(ctx, s.legs[i]) && Elsewhere(sel, s.legs[i])
    ensures LegCashflows(e, s, BumpPillar(ctx, sel, bp).value, i) == LegCashflows(e, s, ctx, i)
  {
    CouponsUnmoved(e, s, ctx, i, sel, bp);
    BumpKeeps(ctx, sel, bp);
    BumpKeepsDay(ctx, sel, bp);
    if !s.legs[i].Protection? {
      SeedingUnmoved(ctx, sel, bp, s.legs[i].currency);
    }
    SurvivalUnmoved(e, ctx, BumpPillar(ctx, sel, bp).value, LegCoupons(e, s.kind, s.legs[i], ctx, i), s.maturityDate);
    hide LegCoupons, XccyCashflows, BumpPillar, PairOf, ValidSwap, ProjectsExactly, SurvivalWeighted,
         DefaultProbability;
  }

  lemma BumpKeepsDay(ctx: Context, sel: Selector, bp: real)
    requires BumpPillar(ctx, sel, bp).Some?
    ensures BumpPillar(ctx, sel, bp).value.curve.asOf == ctx.curve.asOf
    ensures !Mirrors(ctx, sel) ==> BumpPillar(ctx, sel, bp).value.curve == ctx.curve && ctx.book.Some?
  {
    hide BumpPair, Replace, Lookup;
  }

  lemma SeedingUnmoved(ctx: Context, sel: Selector, bp: real, ccy: string)
    requires BumpPillar(ctx, sel, bp).Some? && sel.curveType.Projection?
    ensures PairOf(BumpPillar(ctx, sel, bp).value, ccy).Some? == PairOf(ctx, ccy).Some?
  {
    if ctx.book.Some? {
      BumpedPair(ctx, sel, bp, ccy);
    } else {
      BumpKeeps(ctx, sel, bp);
    }
  }

  lemma SurvivalUnmoved(e: Engine, ctx: Context, bumped: Context, cfs: seq<Entry>, maturity: int)
    requires bumped.creditSpread == ctx.creditSpread && bumped.curve.asOf == ctx.curve.asOf
    ensures SurvivalWeighted(e, bumped, cfs) == SurvivalWeighted(e, ctx, cfs)
    ensures DefaultProbability(e, bumped, maturity) == DefaultProbability(e, ctx, maturity)
  {
    assert Hazard(bumped) == Hazard(ctx);
    hide Hazard, Decay;
    assert forall date :: Survival(e, bumped, date) == Survival(e, ctx, date);
  }

  /** The curve that discounts is not the bumped one: it comes from the book, or the context curve does not mirror. */
  predicate DiscountStays(kind: SwapType, ctx: Context, sel: Selector) {
    kind.XCCY? || (!kind.CDS? && PairOf(ctx, ctx.curve.currency).Some?) || !Mirrors(ctx, sel)
  }

  lemma DiscountUnmoved(kind: SwapType, cfs: seq<Entry>, ctx: Context, sel: Selector, bp: real)
    requires BumpPillar(ctx, sel, bp).Some? && sel.curveType.Projection? && DiscountStays(kind, ctx, sel)
    requires cfs != [] || kind != XCCY
    ensures LegDiscount(kind, cfs, BumpPillar(ctx, sel, bp).value) == LegDiscount(kind, cfs, ctx)
  {
    BumpKeeps(ctx, sel, bp);
    BumpKeepsDay(ctx, sel, bp);
    if ctx.book.Some? {
      BumpedPair(ctx, sel, bp, ctx.curve.currency);
      if kind == XCCY && cfs[0].currency.Some? {
        BumpedPair(ctx, sel, bp, cfs[0].currency.value);
      }
    } else {
      SeedingUnmoved(ctx, sel, bp, ctx.curve.currency);
      if kind == XCCY && cfs[0].currency.Some? {
        SeedingUnmoved(ctx, sel, bp, cfs[0].currency.value);
      }
      NoBookNoPair(ctx);
    }
    hide BumpPillar, PairOf;
  }

  lemma NoBookNoPair(ctx: Context)
    requires ctx.book.None?
    ensures forall ccy :: PairOf(ctx, ccy).None?
  {
  }

  /** Bumping a projection pillar leaves every leg's value as it is, but for float legs on that index. */
  lemma OtherIndexUnmoved(e: Engine, s: Swap, ctx: Context, i: nat, sel: Selector, bp: real)
    requires ValidSwap(s) && i < |s.legs| && BumpPillar(ctx, sel, bp).Some?
    requires s.legs[i].Float? ==> ProjectsExactly(ctx, s.legs[i]) && Elsewhere(sel, s.legs[i])
    requires sel.curveType.Projection? && DiscountStays(s.kind, ctx, sel)
    ensures LegPV(e, s, BumpPillar(ctx, sel, bp).value, i) == LegPV(e, s, ctx, i)
  {
    LocalUnmoved(e, s, ctx, i, sel, bp);
    FactorUnmoved(s, ctx, i, sel, bp);
    hide LegLocalPV, LegFactor, BumpPillar, Signed, PairOf, ProjectsExactly, Elsewhere, ValidSwap, DiscountStays;
  }

  lemma LocalUnmoved(e: Engine, s: Swap, ctx: Context, i: nat, sel: Selector, bp: real)
    requires ValidSwap(s) && i < |s.legs| && BumpPillar(ctx, sel, bp).Some?
    requires s.legs[i].Float? ==> ProjectsExactly(ctx, s.legs[i]) && Elsewhere(sel, s.legs[i])
    requires sel.curveType.Projection? && DiscountStays(s.kind, ctx, sel)
    ensures LegLocalPV(e, s, BumpPillar(ctx, sel, bp).value, i) == LegLocalPV(e, s, ctx, i)
  {
    hide LegCashflows, LegDiscount, BumpPillar, PairOf, ValueOn, ProjectsExactly, Elsewhere, ValidSwap, DiscountStays;
    CashflowsUnmoved(e, s, ctx, i, sel, bp);
    BumpKeeps(ctx, sel, bp);
    var cfs := LegCashflows(e, s, ctx, i);
    if cfs.Some? {
      if cfs.value == [] && s.kind.XCCY? {
        NothingIsWorthNothing(e, ctx);
        NothingIsWorthNothing(e, BumpPillar(ctx, sel, bp).value);
      } else {
        DiscountUnmoved(s.kind, cfs.value, ctx, sel, bp);
      }
    }
  }

  /** Without cashflows a leg is worth 0 on whatever curve. */
  lemma NothingIsWorthNothing(e: Engine, ctx: Context)
    ensures ValueOn(e, [], LegDiscount(XCCY, [], ctx), ctx.valueDate) == Some(0.0)
  {
  }

  lemma FactorUnmoved(s: Swap, ctx: Context, i: nat, sel: Selector, bp: real)
    requires i < |s.legs| && BumpPillar(ctx, sel, bp).Some?
    ensures LegFactor(s, BumpPillar(ctx, sel, bp).value, i) == LegFactor(s, ctx, i)
  {
    BumpKeeps(ctx, sel, bp);
    hide BumpPillar, FxFactor, LegCurrency;
  }
}
