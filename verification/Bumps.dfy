/** Bumped contexts: every curve moved in parallel, the projections only, or one pillar. */
module Bumps {
  import opened Options
  import opened Pricing
  import Curves

  datatype Selector = Selector(currency: string, curveType: CurveType, tenor: real, indexId: Option<string>)

  function ShiftAll(c: Curve, bp: real): Curve { c.(pillars := Curves.ShiftAllPillars(c.pillars, bp)) }

  /** The projections moved, and the discount curves if asked to. */
  function ShiftBook(book: Record<Pair>, bp: real, discounts: bool): Record<Pair> {
    MapBook(book, Shifter(bp, discounts), Shifter(bp, true))
  }

  function Shifter(bp: real, moves: bool): Curve -> Curve {
    (c: Curve) => if moves then ShiftAll(c, bp) else c
  }

  /** Moves the discount curves (if asked to) and all projections of a book. */
  method ShiftBookAll(book: Record<Pair>, bp: real, discounts: bool) returns (byCurrency: Record<Pair>)
    ensures byCurrency == ShiftBook(book, bp, discounts)
  {
    byCurrency := [];
    hide ShiftAll;
    for i := 0 to |book|
      invariant byCurrency == ShiftBook(book, bp, discounts)[..i]
    {
      var (ccy, pair) := book[i];
      var projections: Record<Curve> := [];
      for j := 0 to |pair.projections|
        invariant projections == MapCurves(pair.projections, Shifter(bp, true))[..j]
      {
        var (id, proj) := pair.projections[j];
        projections := projections + [(id, ShiftAll(proj, bp))];
      }
      var discount := if discounts then ShiftAll(pair.discount, bp) else pair.discount;
      assert projections == MapCurves(pair.projections, Shifter(bp, true));
      assert Pair(discount, projections) == MapPair(pair, Shifter(bp, discounts), Shifter(bp, true));
      byCurrency := byCurrency + [(ccy, Pair(discount, projections))];
    }
  }

  function BumpParallel(ctx: Context, bp: real): Context {
    ctx.(curve := ShiftAll(ctx.curve, bp),
         book := if ctx.book.Some? then Some(ShiftBook(ctx.book.value, bp, true)) else None)
  }

  function BumpProjectionParallel(ctx: Context, bp: real): Context {
    if ctx.book.None? then ctx else ctx.(book := Some(ShiftBook(ctx.book.value, bp, false)))
  }

  function ShiftOne(c: Curve, tenor: real, bp: real): Option<Curve> {
    var pillars := Curves.ShiftOnePillar(c.pillars, tenor, bp);
    if pillars.None? then None else Some(c.(pillars := pillars.value))
  }

  function ShiftEach(r: Record<Curve>, tenor: real, bp: real): Option<Record<Curve>> {
    if r == [] then Some([])
    else
      var c, rest := ShiftOne(r[0].1, tenor, bp), ShiftEach(r[1..], tenor, bp);
      if c.None? || rest.None? then None else Some([(r[0].0, c.value)] + rest.value)
  }

  /** The record with the value at an existing key replaced. */
  function Replace<T>(r: Record<T>, key: string, v: T): Record<T> {
    if r == [] then [] else if r[0].0 == key then [(key, v)] + r[1..] else [r[0]] + Replace(r[1..], key, v)
  }

  /** The projections of a pair with one pillar moved, on the named curve or, without a name, on each. */
  function BumpProjections(p: Pair, sel: Selector, bp: real): Option<Record<Curve>> {
    if sel.indexId.None? || sel.indexId.value == "" then ShiftEach(p.projections, sel.tenor, bp)
    else
      var proj := Lookup(p.projections, sel.indexId.value);
      if proj.None? then None
      else
        var c := ShiftOne(proj.value, sel.tenor, bp);
        if c.None? then None else Some(Replace(p.projections, sel.indexId.value, c.value))
  }

  function BumpPair(p: Pair, sel: Selector, bp: real): Option<Pair> {
    if sel.curveType.Projection? then
      var projections := BumpProjections(p, sel, bp);
      if projections.None? then None else Some(p.(projections := projections.value))
    else
      var discount := ShiftOne(p.discount, sel.tenor, bp);
      if discount.None? then None else Some(p.(discount := discount.value))
  }

  predicate Mirrors(ctx: Context, sel: Selector) {
    ctx.curve.currency == sel.currency && ctx.curve.curveType == sel.curveType
  }

  /**
   One pillar moved, in the book and on a context curve of the same currency and type; None where the source throws.
   */
  function BumpPillar(ctx: Context, sel: Selector, bp: real): Option<Context> {
    var curve := if Mirrors(ctx, sel) then ShiftOne(ctx.curve, sel.tenor, bp) else Some(ctx.curve);
    if ctx.book.Some? then
      var entry := Lookup(ctx.book.value, sel.currency);
      if entry.None? || curve.None? then None
      else
        var pair := BumpPair(entry.value, sel, bp);
        if pair.None? then None
        else Some(ctx.(curve := curve.value, book := Some(Replace(ctx.book.value, sel.currency, pair.value))))
    else if !Mirrors(ctx, sel) || curve.None? then None
    else Some(ctx.(curve := curve.value))
  }

  // ----- Enumerating the pillars a swap touches -----

  function SwapCurrencies(legs: seq<Leg>): set<string> {
    set i | 0 <= i < |legs| && !legs[i].Protection? :: legs[i].currency
  }

  function Relevant(s: Swap, ctx: Context): set<string> {
    var ccys := SwapCurrencies(s.legs);
    if ccys == {} then {ctx.curve.currency} else ccys
  }

  function CurveSelectors(c: Curve, ccy: string, t: CurveType, indexId: Option<string>): seq<Selector> {
    seq(|c.pillars|, i requires 0 <= i < |c.pillars| => Selector(ccy, t, c.pillars[i].tenor, indexId))
  }

  function ProjectionSelectors(r: Record<Curve>, ccy: string): seq<Selector> {
    if r == [] then []
    else ProjectionSelectors(r[..|r| - 1], ccy) + CurveSelectors(r[|r| - 1].1, ccy, Projection, r[|r| - 1].1.indexId)
  }

  function PairSelectors(ccy: string, p: Pair): seq<Selector> {
    CurveSelectors(p.discount, ccy, Discount, None) + ProjectionSelectors(p.projections, ccy)
  }

  function BookSelectors(book: Record<Pair>, relevant: set<string>): seq<Selector> {
    if book == [] then []
    else
      var (ccy, pair) := book[|book| - 1];
      BookSelectors(book[..|book| - 1], relevant) + if ccy in relevant then PairSelectors(ccy, pair) else []
  }

  function Selectors(s: Swap, ctx: Context): seq<Selector> {
    if ctx.book.Some? then BookSelectors(ctx.book.value, Relevant(s, ctx))
    else CurveSelectors(ctx.curve, ctx.curve.currency, ctx.curve.curveType, None)
  }

  method EnumerateCurve(out: seq<Selector>, c: Curve, ccy: string, t: CurveType, indexId: Option<string>)
    returns (r: seq<Selector>)
    ensures r == out + CurveSelectors(c, ccy, t, indexId)
  {
    r := out;
    for i := 0 to |c.pillars|
      invariant r == out + CurveSelectors(c, ccy, t, indexId)[..i]
    {
      r := r + [Selector(ccy, t, c.pillars[i].tenor, indexId)];
    }
  }

  method EnumeratePillars(s: Swap, ctx: Context) returns (out: seq<Selector>)
    ensures out == Selectors(s, ctx)
  {
    out := [];
    if ctx.book.None? {
      out := EnumerateCurve(out, ctx.curve, ctx.curve.currency, ctx.curve.curveType, None);
      return;
    }
    var book, relevant := ctx.book.value, Relevant(s, ctx);
    hide Relevant, CurveSelectors;
    for i := 0 to |book|
      invariant out == BookSelectors(book[..i], relevant)
    {
      var (ccy, pair) := book[i];
      assert book[..i + 1][..i] == book[..i];
      if ccy in relevant {
        ghost var before := out;
        out := EnumerateCurve(out, pair.discount, ccy, Discount, None);
        ghost var head := out;
        for j := 0 to |pair.projections|
          invariant out == head + ProjectionSelectors(pair.projections[..j], ccy)
        {
          var proj := pair.projections[j].1;
          assert pair.projections[..j + 1][..j] == pair.projections[..j];
          out := EnumerateCurve(out, proj, ccy, Projection, proj.indexId);
        }
        assert pair.projections[..|pair.projections|] == pair.projections;
        assert out == before + PairSelectors(ccy, pair);
      }
    }
    assert book[..|book|] == book;
  }

  // ----- Bumping never throws where pricing does not -----

  /** A parallel bump can be priced exactly when the context it came from can. */
  lemma ParallelPriceable(s: Swap, ctx: Context, bp: real)
    ensures Priceable(s, BumpParallel(ctx, bp)) <==> Priceable(s, ctx)
  {
    var bumped := BumpParallel(ctx, bp);
    forall ccy
      ensures PairOf(bumped, ccy).Some? <==> PairOf(ctx, ccy).Some?
    {
      if ctx.book.Some? {
        MappedLookup(ctx.book.value, Shifter(bp, true), Shifter(bp, true), ccy);
      }
    }
    hide Priceable, PairOf;
    SameShapePriceable(s, bumped, ctx);
  }
}
