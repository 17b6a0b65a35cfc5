/** Rate sensitivities, and the hedge notional that cancels one. */
module Hedging {
  import opened Options
  import opened Pricing
  import opened Linearity
  import opened Bumps
  import opened Valuation

  datatype Objective = Dv01 | BasisDv01 | KeyRate

  /** Half the difference of the two bumped values. */
  function HalfDifference(up: real, down: real): real { (up - down) / 2.0 }

  function CentralDifference(up: Option<real>, down: Option<real>): Option<real> {
    if up.None? || down.None? then None else Some(HalfDifference(up.value, down.value))
  }

  function SignedParallelDv01(e: Engine, s: Swap, ctx: Context): Option<real>
    requires ValidSwap(s)
  {
    CentralDifference(Npv(e, s, BumpParallel(ctx, BP)), Npv(e, s, BumpParallel(ctx, -BP)))
  }

  function ProjectionDv01(e: Engine, s: Swap, ctx: Context): Option<real>
    requires ValidSwap(s)
  {
    if ctx.book.None? then Some(0.0)
    else CentralDifference(Npv(e, s, BumpProjectionParallel(ctx, BP)), Npv(e, s, BumpProjectionParallel(ctx, -BP)))
  }

  function BumpedNpv(e: Engine, s: Swap, ctx: Context, sel: Selector, bp: real): Option<real>
    requires ValidSwap(s)
  {
    var bumped := BumpPillar(ctx, sel, bp);
    if bumped.None? then None else Npv(e, s, bumped.value)
  }

  function PillarDv01(e: Engine, s: Swap, ctx: Context, sel: Selector): Option<real>
    requires ValidSwap(s)
  {
    CentralDifference(BumpedNpv(e, s, ctx, sel, BP), BumpedNpv(e, s, ctx, sel, -BP))
  }

  /** One value per selector; None when any of them throws. */
  function PillarDv01s(e: Engine, s: Swap, ctx: Context, sels: seq<Selector>): (r: Option<seq<real>>)
    requires ValidSwap(s)
    ensures r.Some? ==> |r.value| == |sels|
  {
    if sels == [] then Some([])
    else
      var first, rest := PillarDv01(e, s, ctx, sels[0]), PillarDv01s(e, s, ctx, sels[1..]);
      if first.None? || rest.None? then None else Some([first.value] + rest.value)
  }

  function FindTenor(sels: seq<Selector>, tenor: real, i: nat): (r: Option<nat>)
    requires i <= |sels|
    ensures r.Some? ==> r.value < |sels| && sels[r.value].tenor == tenor
    decreases |sels| - i
  {
    if i == |sels| then None else if sels[i].tenor == tenor then Some(i) else FindTenor(sels, tenor, i + 1)
  }

  function KeyRateDv01(e: Engine, s: Swap, ctx: Context, tenor: real): Option<real>
    requires ValidSwap(s)
  {
    var sels := Selectors(s, ctx);
    var entries, i := PillarDv01s(e, s, ctx, sels), FindTenor(sels, tenor, 0);
    if entries.None? || i.None? then None else Some(entries.value[i.value])
  }

  function Measure(e: Engine, s: Swap, ctx: Context, objective: Objective, pillar: Option<real>): Option<real>
    requires ValidSwap(s)
  {
    match objective
    case Dv01 => SignedParallelDv01(e, s, ctx)
    case BasisDv01 => ProjectionDv01(e, s, ctx)
    case KeyRate => if pillar.None? then None else KeyRateDv01(e, s, ctx, pillar.value)
  }

  function Offset(target: real, hedge: real, anchor: real): real
    requires hedge != 0.0
  {
    var factor := -target / hedge;
    factor * anchor
  }

  /** The leg-0 notional at which the hedge cancels the target's measure; None where the source throws. */
  function SolveHedgeNotional(e: Engine, target: Swap, targetCtx: Context, hedge: Swap, hedgeCtx: Context,
                              objective: Objective, pillar: Option<real>): Option<real>
    requires ValidSwap(target) && ValidSwap(hedge)
  {
    var mTarget := Measure(e, target, targetCtx, objective, pillar);
    var mHedge := Measure(e, hedge, hedgeCtx, objective, pillar);
    if mTarget.None? || mHedge.None? || mHedge.value == 0.0 then None
    else if hedge.legs == [] || hedge.legs[0].notional == 0.0 then None
    else Some(Offset(mTarget.value, mHedge.value, hedge.legs[0].notional))
  }

  // ----- Every measure is linear in the notionals -----

  lemma DifferenceScales(up: Option<real>, down: Option<real>, k: real)
    ensures CentralDifference(ScaleOption(up, k), ScaleOption(down, k)) == ScaleOption(CentralDifference(up, down), k)
  {
    if up.Some? && down.Some? {
      HalfScales(up.value, down.value, k);
    }
    hide Scale, HalfDifference;
  }

  lemma HalfScales(up: real, down: real, k: real)
    ensures HalfDifference(Scale(k, up), Scale(k, down)) == Scale(k, HalfDifference(up, down))
  {
  }

  lemma SelectorsUnscaled(s: Swap, ctx: Context, k: real)
    ensures Selectors(ScaleSwap(s, k), ctx) == Selectors(s, ctx)
  {
    hide Scale;
    var t := ScaleSwap(s, k);
    assert SwapCurrencies(t.legs) == SwapCurrencies(s.legs) by {
      assert |t.legs| == |s.legs| && forall i :: 0 <= i < |s.legs| ==> t.legs[i] == ScaleLeg(s.legs[i], k);
      hide ScaleSwap;
      forall ccy | ccy in SwapCurrencies(s.legs)
        ensures ccy in SwapCurrencies(t.legs)
      {
        var i :| 0 <= i < |s.legs| && !s.legs[i].Protection? && s.legs[i].currency == ccy;
        assert !t.legs[i].Protection? && t.legs[i].currency == ccy;
      }
    }
    hide SwapCurrencies, ScaleSwap, BookSelectors;
  }

  lemma PillarDv01Scales(e: Engine, s: Swap, ctx: Context, sel: Selector, k: real)
    requires ValidSwap(s)
    ensures PillarDv01(e, ScaleSwap(s, k), ctx, sel) == ScaleOption(PillarDv01(e, s, ctx, sel), k)
  {
    hide BumpPillar, Npv, ScaleSwap, Scale, CentralDifference;
    forall bp
      ensures BumpedNpv(e, ScaleSwap(s, k), ctx, sel, bp) == ScaleOption(BumpedNpv(e, s, ctx, sel, bp), k)
    {
      var bumped := BumpPillar(ctx, sel, bp);
      if bumped.Some? {
        NpvScales(e, s, bumped.value, k);
      }
    }
    hide BumpedNpv;
    DifferenceScales(BumpedNpv(e, s, ctx, sel, BP), BumpedNpv(e, s, ctx, sel, -BP), k);
  }

  lemma {:induction false} PillarDv01sScale(e: Engine, s: Swap, ctx: Context, sels: seq<Selector>, k: real)
    requires ValidSwap(s)
    ensures var a, b := PillarDv01s(e, ScaleSwap(s, k), ctx, sels), PillarDv01s(e, s, ctx, sels);
            a.Some? == b.Some? && (b.Some? ==> forall i :: 0 <= i < |sels| ==> a.value[i] == Scale(k, b.value[i]))
  {
    hide PillarDv01, ScaleSwap, Scale;
    if sels != [] {
      PillarDv01Scales(e, s, ctx, sels[0], k);
      PillarDv01sScale(e, s, ctx, sels[1..], k);
    }
  }

  /** The measure of a scaled swap is the scaled measure, for every objective; it throws when the swap's does. */
  lemma MeasureScales(e: Engine, s: Swap, ctx: Context, objective: Objective, pillar: Option<real>, k: real)
    requires ValidSwap(s)
    ensures Measure(e, ScaleSwap(s, k), ctx, objective, pillar) == ScaleOption(Measure(e, s, ctx, objective, pillar), k)
  {
    hide Npv, ScaleSwap, CentralDifference, BumpParallel, BumpProjectionParallel, PillarDv01s, Selectors;
    match objective
    case Dv01 =>
      NpvScales(e, s, BumpParallel(ctx, BP), k);
      NpvScales(e, s, BumpParallel(ctx, -BP), k);
      DifferenceScales(Npv(e, s, BumpParallel(ctx, BP)), Npv(e, s, BumpParallel(ctx, -BP)), k);
    case BasisDv01 =>
      assert Scale(k, 0.0) == 0.0;
      NpvScales(e, s, BumpProjectionParallel(ctx, BP), k);
      NpvScales(e, s, BumpProjectionParallel(ctx, -BP), k);
      DifferenceScales(Npv(e, s, BumpProjectionParallel(ctx, BP)), Npv(e, s, BumpProjectionParallel(ctx, -BP)), k);
    case KeyRate =>
      SelectorsUnscaled(s, ctx, k);
      PillarDv01sScale(e, s, ctx, Selectors(s, ctx), k);
  }

  // ----- The solved notional -----

  lemma HedgeArithmetic(target: real, hedge: real, anchor: real, n: real, k: real)
    requires hedge != 0.0 && anchor != 0.0 && n == Offset(target, hedge, anchor)
    ensures target + Scale(k, hedge) == 0.0 <==> Scale(k, anchor) == n
  {
    var factor := -target / hedge;
    assert factor * hedge == -target;
    if k == factor {
    } else {
      assert (k - factor) * hedge != 0.0 && (k - factor) * anchor != 0.0;
      assert k * hedge == (k - factor) * hedge + factor * hedge;
      assert k * anchor == (k - factor) * anchor + factor * anchor;
    }
  }

  /** Among all multiples of the hedge, exactly the one with the solved leg-0 notional leaves no net exposure. */
  lemma HedgeIsNeutralIff(e: Engine, target: Swap, targetCtx: Context, hedge: Swap, hedgeCtx: Context,
                          objective: Objective, pillar: Option<real>, k: real)
    requires ValidSwap(target) && ValidSwap(hedge)
    requires SolveHedgeNotional(e, target, targetCtx, hedge, hedgeCtx, objective, pillar).Some?
    ensures var n := SolveHedgeNotional(e, target, targetCtx, hedge, hedgeCtx, objective, pillar).value;
            var mTarget, mHedge := Measure(e, target, targetCtx, objective, pillar),
                Measure(e, ScaleSwap(hedge, k), hedgeCtx, objective, pillar);
            mTarget.Some? && mHedge.Some? && hedge.legs != []
            && (mTarget.value + mHedge.value == 0.0 <==> ScaleSwap(hedge, k).legs[0].notional == n)
  {
    MeasureScales(e, hedge, hedgeCtx, objective, pillar, k);
    var n := SolveHedgeNotional(e, target, targetCtx, hedge, hedgeCtx, objective, pillar).value;
    hide Measure, Scale, Offset, ValidSwap;
    var mTarget, mHedge := Measure(e, target, targetCtx, objective, pillar).value,
        Measure(e, hedge, hedgeCtx, objective, pillar).value;
    HedgeArithmetic(mTarget, mHedge, hedge.legs[0].notional, n, k);
  }

  lemma SolvedHasAnchor(e: Engine, target: Swap, targetCtx: Context, hedge: Swap, hedgeCtx: Context,
                        objective: Objective, pillar: Option<real>)
    requires ValidSwap(target) && ValidSwap(hedge)
    requires SolveHedgeNotional(e, target, targetCtx, hedge, hedgeCtx, objective, pillar).Some?
    ensures hedge.legs != [] && hedge.legs[0].notional != 0.0
  {
    hide Measure;
  }

  lemma ScaledAnchor(hedge: Swap, n: real, anchor: real)
    requires hedge.legs != [] && hedge.legs[0].notional == anchor != 0.0
    ensures |ScaleSwap(hedge, n / anchor).legs| == |hedge.legs| && ScaleSwap(hedge, n / anchor).legs[0].notional == n
  {
    assert Scale(n / anchor, anchor) == n;
    hide Scale;
  }

  /** Scaling the hedge to the returned notional does it. */
  lemma HedgeCancels(e: Engine, target: Swap, targetCtx: Context, hedge: Swap, hedgeCtx: Context, objective: Objective,
                     pillar: Option<real>)
    requires ValidSwap(target) && ValidSwap(hedge)
    requires SolveHedgeNotional(e, target, targetCtx, hedge, hedgeCtx, objective, pillar).Some?
    ensures hedge.legs != [] && hedge.legs[0].notional != 0.0
    ensures var n := SolveHedgeNotional(e, target, targetCtx, hedge, hedgeCtx, objective, pillar).value;
            var sized := ScaleSwap(hedge, n / hedge.legs[0].notional);
            var mTarget, mHedge := Measure(e, target, targetCtx, objective, pillar),
                Measure(e, sized, hedgeCtx, objective, pillar);
            sized.legs[0].notional == n && mTarget.Some? && mHedge.Some? && mTarget.value + mHedge.value == 0.0
  {
    hide *;
    SolvedHasAnchor(e, target, targetCtx, hedge, hedgeCtx, objective, pillar);
    var n := SolveHedgeNotional(e, target, targetCtx, hedge, hedgeCtx, objective, pillar).value;
    var anchor := hedge.legs[0].notional;
    ScaledAnchor(hedge, n, anchor);
    HedgeIsNeutralIff(e, target, targetCtx, hedge, hedgeCtx, objective, pillar, n / anchor);
  }
}
