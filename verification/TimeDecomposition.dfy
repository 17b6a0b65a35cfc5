/** Moving the value date: frozen and sliding curves, and the split of a forward value into theta and roll. */
module TimeDecomposition {
  import opened Options
  import opened Calendar
  import opened Schedules
  import opened Pricing
  import Curves

  datatype Mode = Slide | Freeze
  datatype Event = Fixing | Payment
  datatype Horizon = ToDay(asOf: int) | DeltaDays(days: int) | ToNextEvent(event: Event)

  // ----- The next event of a swap -----

  /** Whether a leg's schedule dates are events of this kind. */
  predicate HasEvents(l: Leg, evt: Event) { l.Float? || (l.Fixed? && evt.Payment?) }

  function FirstAfter(dates: seq<Date>, t0: int): Option<int> {
    if dates == [] then None
    else if DayNumber(dates[0]) > t0 then Some(DayNumber(dates[0]))
    else FirstAfter(dates[1..], t0)
  }

  function LegNext(l: Leg, evt: Event, t0: int): Option<int>
    requires ValidLeg(l)
  {
    if HasEvents(l, evt) then FirstAfter(ScheduleDates(l.schedule), t0) else None
  }

  function Earlier(a: Option<int>, b: Option<int>): Option<int> {
    if a.None? then b else if b.None? || a.value <= b.value then a else b
  }

  /** The earliest of the first `n` legs' next events. */
  function NextOf(s: Swap, evt: Event, t0: int, n: nat): Option<int>
    requires ValidSwap(s) && n <= |s.legs|
  {
    if n == 0 then None
    else
      assert ValidLeg(s.legs[n - 1]);
      Earlier(NextOf(s, evt, t0, n - 1), LegNext(s.legs[n - 1], evt, t0))
  }

  /** Without a fixing left, the next fixing is the next payment. */
  function NextEvent(s: Swap, evt: Event, t0: int): Option<int>
    requires ValidSwap(s)
  {
    var next := NextOf(s, evt, t0, |s.legs|);
    if next.None? && evt.Fixing? then NextOf(s, Payment, t0, |s.legs|) else next
  }

  method FindNextEvent(s: Swap, ctx: Context, evt: Event) returns (d: Option<int>)
    requires ValidSwap(s)
    ensures d == NextEvent(s, evt, ctx.curve.asOf)
    decreases evt.Fixing?
  {
    var t0 := ctx.curve.asOf;
    d := None;
    for i := 0 to |s.legs|
      invariant d == NextOf(s, evt, t0, i)
    {
      var leg := s.legs[i];
      assert ValidLeg(leg);
      if leg.Protection? || (evt.Fixing? && !leg.Float?) {
        continue;
      }
      var ends := GenerateScheduleDates(leg.schedule.start, leg.schedule.end, leg.schedule.frequency);
      var k := 0;
      while k < |ends| && DayNumber(ends[k]) <= t0
        invariant k <= |ends| && FirstAfter(ends[k..], t0) == FirstAfter(ends, t0)
      {
        k := k + 1;
      }
      if k < |ends| {
        var candidate := DayNumber(ends[k]);
        if d.None? || candidate < d.value {
          d := Some(candidate);
        }
      }
    }
    if d.None? && evt.Fixing? {
      d := FindNextEvent(s, ctx, Payment);
    }
  }

  ghost predicate IsEvent(s: Swap, evt: Event, day: int)
    requires ValidSwap(s)
  {
    exists i, j :: 0 <= i < |s.legs| && IsLegEvent(s.legs[i], evt, day, j)
  }

  ghost predicate IsLegEvent(l: Leg, evt: Event, day: int, j: int) {
    && HasEvents(l, evt) && ValidSchedule(l.schedule)
    && 0 <= j < |ScheduleDates(l.schedule)| && DayNumber(ScheduleDates(l.schedule)[j]) == day
  }

  lemma {:induction false} FirstAfterIsLeast(dates: seq<Date>, t0: int)
    requires forall i, j :: 0 <= i < j < |dates| ==> DayNumber(dates[i]) < DayNumber(dates[j])
    ensures var d := FirstAfter(dates, t0);
            && (d.Some? ==> d.value > t0 && exists i :: 0 <= i < |dates| && DayNumber(dates[i]) == d.value)
            && forall i :: 0 <= i < |dates| && DayNumber(dates[i]) > t0 ==> d.Some? && d.value <= DayNumber(dates[i])
  {
    hide DayNumber;
    if dates != [] && DayNumber(dates[0]) <= t0 {
      FirstAfterIsLeast(dates[1..], t0);
      var d := FirstAfter(dates[1..], t0);
      if d.Some? {
        var i :| 0 <= i < |dates[1..]| && DayNumber(dates[1..][i]) == d.value;
        assert DayNumber(dates[i + 1]) == d.value;
      }
    }
  }

  lemma {:induction false} DatesOrdered(s: Schedule, i: nat, j: nat)
    requires ValidSchedule(s) && i < j < |ScheduleDates(s)|
    ensures DayNumber(ScheduleDates(s)[i]) < DayNumber(ScheduleDates(s)[j])
    decreases j
  {
    ScheduleAscends(s);
    hide DayNumber, ScheduleDates, Valid;
    assert DayNumber(Prior(s, ScheduleDates(s), j)) < DayNumber(ScheduleDates(s)[j]);
    if i < j - 1 {
      DatesOrdered(s, i, j - 1);
    }
  }

  lemma LegNextIsLeast(l: Leg, evt: Event, t0: int, day: int, j: int)
    requires ValidLeg(l)
    ensures var d := LegNext(l, evt, t0); d.Some? ==> d.value > t0 && exists j :: IsLegEvent(l, evt, d.value, j)
    ensures IsLegEvent(l, evt, day, j) && day > t0 ==> LegNext(l, evt, t0).Some? && LegNext(l, evt, t0).value <= day
  {
    if HasEvents(l, evt) {
      var dates := ScheduleDates(l.schedule);
      forall a, b | 0 <= a < b < |dates|
        ensures DayNumber(dates[a]) < DayNumber(dates[b])
      {
        DatesOrdered(l.schedule, a, b);
      }
      hide DayNumber, ScheduleDates, Valid;
      FirstAfterIsLeast(dates, t0);
      var d := FirstAfter(dates, t0);
      if d.Some? {
        var i :| 0 <= i < |dates| && DayNumber(dates[i]) == d.value;
        assert IsLegEvent(l, evt, d.value, i);
      }
    }
  }

  lemma {:induction false} NextOfIsLeast(s: Swap, evt: Event, t0: int, n: nat, day: int)
    requires ValidSwap(s) && n <= |s.legs|
    ensures var d := NextOf(s, evt, t0, n); d.Some? ==> d.value > t0 && IsEvent(s, evt, d.value)
    ensures day > t0 && (exists i, j :: 0 <= i < n && IsLegEvent(s.legs[i], evt, day, j))
            ==> NextOf(s, evt, t0, n).Some? && NextOf(s, evt, t0, n).value <= day
  {
    hide LegNext, IsLegEvent;
    if n > 0 {
      var l := s.legs[n - 1];
      assert ValidLeg(l);
      NextOfIsLeast(s, evt, t0, n - 1, day);
      LegNextIsLeast(l, evt, t0, day, 0);
      if j :| IsLegEvent(l, evt, day, j) {
        LegNextIsLeast(l, evt, t0, day, j);
      }
    }
  }

  /** `d` is the earliest event of this kind after `t0`; None when there is none. */
  ghost predicate Earliest(s: Swap, evt: Event, t0: int, d: Option<int>)
    requires ValidSwap(s)
  {
    && (d.Some? ==> d.value > t0 && IsEvent(s, evt, d.value))
    && forall day :: day > t0 && IsEvent(s, evt, day) ==> d.Some? && d.value <= day
  }

  lemma NextOfIsEarliest(s: Swap, evt: Event, t0: int)
    requires ValidSwap(s)
    ensures Earliest(s, evt, t0, NextOf(s, evt, t0, |s.legs|))
  {
    hide IsLegEvent, NextOf;
    NextOfIsLeast(s, evt, t0, |s.legs|, t0);
    forall day | day > t0 && IsEvent(s, evt, day)
      ensures NextOf(s, evt, t0, |s.legs|).Some? && NextOf(s, evt, t0, |s.legs|).value <= day
    {
      NextOfIsLeast(s, evt, t0, |s.legs|, day);
    }
  }

  /** The next event is the earliest of its kind; only when no fixing is left is it the earliest payment instead. */
  lemma NextEventIsEarliest(s: Swap, evt: Event, t0: int)
    requires ValidSwap(s)
    ensures var d := NextEvent(s, evt, t0);
            if evt.Fixing? && (forall day :: day > t0 ==> !IsEvent(s, Fixing, day)) then Earliest(s, Payment, t0, d)
            else Earliest(s, evt, t0, d)
  {
    NextOfIsEarliest(s, evt, t0);
    NextOfIsEarliest(s, Payment, t0);
    hide IsEvent, NextOf;
  }

  /** None where the source throws: a day that is not in the future, or no event left. */
  function ResolveHorizon(s: Swap, ctx: Context, h: Horizon): Option<int>
    requires ValidSwap(s)
  {
    match h
    case ToDay(asOf) => if asOf > ctx.curve.asOf then Some(asOf) else None
    case DeltaDays(days) => if days > 0 then Some(ctx.curve.asOf + days) else None
    case ToNextEvent(event) => NextEvent(s, event, ctx.curve.asOf)
  }

  /** Every horizon lies strictly in the future, so advancing to it never throws. */
  lemma HorizonIsFuture(s: Swap, ctx: Context, h: Horizon)
    requires ValidSwap(s) && ResolveHorizon(s, ctx, h).Some?
    ensures ResolveHorizon(s, ctx, h).value > ctx.curve.asOf
  {
    if h.ToNextEvent? {
      NextEventIsEarliest(s, h.event, ctx.curve.asOf);
    }
    hide NextEvent, IsEvent;
  }

  // ----- Advancing a context -----

  function ShiftCurve(c: Curve, target: int, deltaDays: int, mode: Mode): Curve {
    c.(asOf := target, pillars := if mode.Freeze? then Curves.Freeze(c.pillars, deltaDays as real) else c.pillars)
  }

  function Mover(target: int, deltaDays: int, mode: Mode): Curve -> Curve {
    (c: Curve) => ShiftCurve(c, target, deltaDays, mode)
  }

  function ShiftBook(book: Record<Pair>, target: int, deltaDays: int, mode: Mode): Record<Pair> {
    MapBook(book, Mover(target, deltaDays, mode), Mover(target, deltaDays, mode))
  }

  /** The context as of a later day; None where the source throws, for an earlier one. */
  function AdvanceAsOf(ctx: Context, target: int, mode: Mode): Option<Context> {
    if target < ctx.curve.asOf then None
    else
      var deltaDays := target - ctx.curve.asOf;
      Some(ctx.(curve := ShiftCurve(ctx.curve, target, deltaDays, mode),
                book := if ctx.book.Some? then Some(ShiftBook(ctx.book.value, target, deltaDays, mode)) else None))
  }

  method AdvanceContext(ctx: Context, target: int, mode: Mode) returns (r: Option<Context>)
    ensures r == AdvanceAsOf(ctx, target, mode)
  {
    if target < ctx.curve.asOf { return None; }
    var deltaDays := target - ctx.curve.asOf;
    hide ShiftCurve;
    var curve := ShiftCurve(ctx.curve, target, deltaDays, mode);
    if ctx.book.None? { return Some(ctx.(curve := curve)); }
    var book := ctx.book.value;
    var byCurrency: Record<Pair> := [];
    for i := 0 to |book|
      invariant byCurrency == ShiftBook(book, target, deltaDays, mode)[..i]
    {
      var (ccy, pair) := book[i];
      ghost var shifted := MapPair(pair, Mover(target, deltaDays, mode), Mover(target, deltaDays, mode));
      var projections: Record<Curve> := [];
      for j := 0 to |pair.projections|
        invariant projections == shifted.projections[..j]
      {
        var (id, proj) := pair.projections[j];
        projections := projections + [(id, ShiftCurve(proj, target, deltaDays, mode))];
      }
      assert projections == shifted.projections;
      byCurrency := byCurrency + [(ccy, Pair(ShiftCurve(pair.discount, target, deltaDays, mode), projections))];
    }
    assert byCurrency == ShiftBook(book, target, deltaDays, mode);
    r := Some(ctx.(curve := curve, book := Some(byCurrency)));
  }

  // ----- Theta and roll -----

  /** The value of what is paid strictly after the given day. */
  function PriceStrictlyFuture(e: Engine, s: Swap, ctx: Context, strictAsOf: int): Option<real>
    requires ValidSwap(s)
  {
    Npv(e, s, ctx.(valueDate := Some(strictAsOf)))
  }

  function Filtered(ctx: Context): Context { ctx.(valueDate := Some(ctx.curve.asOf)) }

  function Advanced(e: Engine, s: Swap, ctx: Context, target: int, mode: Mode): Option<real>
    requires ValidSwap(s)
  {
    var advanced := AdvanceAsOf(ctx, target, mode);
    if advanced.None? then None else PriceStrictlyFuture(e, s, advanced.value, target)
  }

  function Minus(a: Option<real>, b: Option<real>): Option<real> {
    if a.None? || b.None? then None else Some(a.value - b.value)
  }

  function Theta(e: Engine, s: Swap, ctx: Context, h: Horizon): Option<real>
    requires ValidSwap(s)
  {
    var t1 := ResolveHorizon(s, ctx, h);
    if t1.None? then None
    else Minus(Advanced(e, s, Filtered(ctx), t1.value, Freeze), Npv(e, s, Filtered(ctx)))
  }

  function Roll(e: Engine, s: Swap, ctx: Context, h: Horizon): Option<real>
    requires ValidSwap(s)
  {
    var t1 := ResolveHorizon(s, ctx, h);
    if t1.None? then None
    else Minus(Advanced(e, s, ctx, t1.value, Slide), Advanced(e, s, ctx, t1.value, Freeze))
  }

  function ForwardNpv(e: Engine, s: Swap, ctx: Context, asOf: int): Option<real>
    requires ValidSwap(s)
  {
    if asOf < ctx.curve.asOf then None else Advanced(e, s, Filtered(ctx), asOf, Slide)
  }

  /** Neither advancing nor filtering changes what can be priced. */
  lemma AdvancedPriceable(s: Swap, ctx: Context, target: int, mode: Mode, valueDate: Option<int>)
    requires target >= ctx.curve.asOf
    ensures Priceable(s, AdvanceAsOf(ctx, target, mode).value.(valueDate := valueDate)) <==> Priceable(s, ctx)
  {
    var advanced := AdvanceAsOf(ctx, target, mode).value.(valueDate := valueDate);
    var move := Mover(target, target - ctx.curve.asOf, mode);
    forall ccy
      ensures PairOf(advanced, ccy).Some? <==> PairOf(ctx, ccy).Some?
    {
      if ctx.book.Some? {
        MappedLookup(ctx.book.value, move, move, ccy);
      }
    }
    hide Priceable, PairOf;
    SameShapePriceable(s, advanced, ctx);
  }

  lemma FilteredPriceable(s: Swap, ctx: Context)
    ensures Priceable(s, Filtered(ctx)) <==> Priceable(s, ctx)
  {
    hide Priceable;
    SameShapePriceable(s, Filtered(ctx), ctx);
  }

  /** The filter set before advancing is overwritten by the one set after. */
  lemma FilterOverwritten(e: Engine, s: Swap, ctx: Context, target: int, mode: Mode)
    requires ValidSwap(s)
    ensures Advanced(e, s, Filtered(ctx), target, mode) == Advanced(e, s, ctx, target, mode)
  {
    hide Npv, ShiftCurve, ShiftBook;
  }

  lemma AdvancedIff(e: Engine, s: Swap, ctx: Context, target: int, mode: Mode)
    requires ValidSwap(s) && target >= ctx.curve.asOf
    ensures Advanced(e, s, ctx, target, mode).Some? <==> Priceable(s, ctx)
  {
    AdvancedPriceable(s, ctx, target, mode, Some(target));
    PricesIff(e, s, AdvanceAsOf(ctx, target, mode).value.(valueDate := Some(target)));
    hide Npv, Priceable, ShiftCurve, ShiftBook;
  }

  /** Value today, plus theta, plus roll, is the forward value, for every horizon that resolves on a priceable swap. */
  lemma ThetaPlusRoll(e: Engine, s: Swap, ctx: Context, h: Horizon)
    requires ValidSwap(s)
    ensures var t1, today := ResolveHorizon(s, ctx, h), Npv(e, s, Filtered(ctx));
            && (Theta(e, s, ctx, h).Some? <==> t1.Some? && Priceable(s, ctx))
            && (Roll(e, s, ctx, h).Some? <==> t1.Some? && Priceable(s, ctx))
            && (t1.Some? && Priceable(s, ctx) ==>
                  && today.Some? && ForwardNpv(e, s, ctx, t1.value).Some?
                  && today.value + Theta(e, s, ctx, h).value + Roll(e, s, ctx, h).value
                      == ForwardNpv(e, s, ctx, t1.value).value)
  {
    FilteredPriceable(s, ctx);
    PricesIff(e, s, Filtered(ctx));
    hide Npv, Priceable, ResolveHorizon, Advanced, Filtered;
    var t1 := ResolveHorizon(s, ctx, h);
    if t1.Some? {
      HorizonIsFuture(s, ctx, h);
      FilterOverwritten(e, s, ctx, t1.value, Slide);
      FilterOverwritten(e, s, ctx, t1.value, Freeze);
      AdvancedIff(e, s, ctx, t1.value, Slide);
      AdvancedIff(e, s, ctx, t1.value, Freeze);
    }
  }

  // ----- What freezing keeps -----

  /** The engine's zero rate is the linear interpolation. */
  ghost predicate InterpolatesLinearly(e: Engine) {
    forall c: Curve, t: int ::
      Curves.Defined(c.pillars, t as real) ==> e.zero(c, t) == Curves.Zero(c.pillars, t as real)
  }

  ghost predicate StaysAway(c: Curve, target: int) {
    forall i :: 0 <= i < |c.pillars| ==> c.pillars[i].tenor >= (target - c.asOf) as real + 1.0
  }

  lemma FrozenZero(e: Engine, c: Curve, frozen: Curve, target: int, t: int)
    requires InterpolatesLinearly(e) && Curves.Sorted(c.pillars) && target >= c.asOf && StaysAway(c, target)
    requires frozen == ShiftCurve(c, target, target - c.asOf, Freeze)
    ensures e.zero(frozen, t - (target - c.asOf)) == e.zero(c, t)
  {
    hide Curves.Defined, Curves.Zero, Curves.Sorted, Curves.Freeze;
    var delta := target - c.asOf;
    RealSum(t - delta, delta, t);
    Curves.SortedIsDefined(c.pillars, t as real);
    Curves.FrozenCurveIsSameCurve(c.pillars, delta as real, (t - delta) as real);
  }

  lemma RealSum(a: int, b: int, c: int)
    requires a + b == c
    ensures a as real + b as real == c as real
  {
  }

  /** The source's engine of linear curves does. */
  lemma LinearEngineInterpolates(exp: real -> real)
    ensures InterpolatesLinearly(LinearEngine(exp))
  {
  }

  /** While every pillar stays at least a day away, a frozen curve projects every forward coupon unchanged. */
  lemma FreezeKeepsForwards(e: Engine, c: Curve, target: int, notional: real, dayCount: DayCount, spread: real,
                            start: Date, end: Date)
    requires InterpolatesLinearly(e) && Curves.Sorted(c.pillars) && target >= c.asOf && StaysAway(c, target)
    ensures var frozen := ShiftCurve(c, target, target - c.asOf, Freeze);
            CouponAmount(e, ForwardTerms(notional, dayCount, frozen, spread), start, end)
            == CouponAmount(e, ForwardTerms(notional, dayCount, c, spread), start, end)
  {
    hide *;
    var frozen := ShiftCurve(c, target, target - c.asOf, Freeze);
    ShiftedDay(c, target, target - c.asOf);
    MidTenorMoves(c, frozen, DayNumber(start), DayNumber(end));
    FrozenZero(e, c, frozen, target, MidTenor(c, DayNumber(start), DayNumber(end)));
    ForwardFollowsZero(e, c, frozen, notional, dayCount, spread, start, end);
  }

  lemma ShiftedDay(c: Curve, target: int, deltaDays: int)
    ensures ShiftCurve(c, target, deltaDays, Freeze).asOf == target
  {
  }

  lemma ForwardFollowsZero(e: Engine, c: Curve, d: Curve, notional: real, dayCount: DayCount, spread: real, start: Date,
                           end: Date)
    requires e.zero(d, MidTenor(d, DayNumber(start), DayNumber(end)))
            == e.zero(c, MidTenor(c, DayNumber(start), DayNumber(end)))
    ensures CouponAmount(e, ForwardTerms(notional, dayCount, d, spread), start, end)
            == CouponAmount(e, ForwardTerms(notional, dayCount, c, spread), start, end)
  {
    hide DayNumber, MidTenor, YearFraction, ForwardAmount;
  }

  lemma MidTenorMoves(c: Curve, d: Curve, start: int, end: int)
    ensures MidTenor(d, start, end) == MidTenor(c, start, end) - (d.asOf - c.asOf)
  {
  }
}
