/**
 Payment schedules and fixed coupons: dates generated by repeated month steps, and one coupon per
 period.
 */
module Schedules {
  import opened Calendar

  datatype Frequency = Monthly | Quarterly | SemiAnnual | Annual
  datatype DayCount = Act360 | Act365 | Thirty360 | ThirtyE360
  datatype Schedule = Schedule(start: Date, end: Date, frequency: Frequency)
  datatype Cashflow = Cashflow(date: Date, amount: real)

  function FrequencyMonths(f: Frequency): int {
    match f case Monthly => 1 case Quarterly => 3 case SemiAnnual => 6 case Annual => 12
  }

  predicate ValidSchedule(s: Schedule) {
    Valid(s.start) && Valid(s.end)
  }

  // ----- Schedule dates -----

  /** `current`, then every month step after it, as long as `end` is not passed. */
  function DatesFrom(current: Date, end: Date, step: int): seq<Date>
    requires Valid(current) && step > 0
    decreases DayNumber(end) - DayNumber(current)
  {
    if DayNumber(current) > DayNumber(end) then []
    else
      AddMonthsIsMakeDay(current, step);
      AddMonthsMoves(current, step);
      [current] + DatesFrom(AddMonths(current, step), end, step)
  }

  function ScheduleDates(s: Schedule): seq<Date>
    requires ValidSchedule(s)
  {
    var step := FrequencyMonths(s.frequency);
    AddMonthsIsMakeDay(s.start, step);
    DatesFrom(AddMonths(s.start, step), s.end, step)
  }

  method GenerateScheduleDates(start: Date, end: Date, frequency: Frequency) returns (dates: seq<Date>)
    requires Valid(start) && Valid(end)
    ensures dates == ScheduleDates(Schedule(start, end, frequency))
  {
    hide AddMonths, DayNumber, Valid;
    var step := FrequencyMonths(frequency);
    dates := [];
    AddMonthsIsMakeDay(start, step);
    var current := AddMonths(start, step);
    while DayNumber(current) <= DayNumber(end)
      invariant Valid(current)
      invariant dates + DatesFrom(current, end, step) == ScheduleDates(Schedule(start, end, frequency))
      decreases DayNumber(end) - DayNumber(current)
    {
      AddMonthsIsMakeDay(current, step);
      AddMonthsMoves(current, step);
      dates := dates + [current];
      current := AddMonths(current, step);
    }
  }

  /** The date a generated date was stepped from: the one before it, or the start. */
  function Prior(s: Schedule, dates: seq<Date>, i: nat): Date
    requires i <= |dates|
  {
    if i == 0 then s.start else dates[i - 1]
  }

  lemma {:induction false} DatesStep(current: Date, end: Date, step: int)
    requires Valid(current) && step > 0
    ensures var ds := DatesFrom(current, end, step);
            && (forall i :: 0 <= i < |ds| ==> Valid(ds[i]) && DayNumber(ds[i]) <= DayNumber(end))
            && (forall i :: 0 < i < |ds| ==> ds[i] == AddMonths(ds[i - 1], step))
            && (ds == [] ==> DayNumber(current) > DayNumber(end))
            && (ds != [] ==> ds[0] == current && DayNumber(AddMonths(ds[|ds| - 1], step)) > DayNumber(end))
    decreases DayNumber(end) - DayNumber(current)
  {
    hide AddMonths, DayNumber, Valid;
    if DayNumber(current) <= DayNumber(end) {
      AddMonthsIsMakeDay(current, step);
      AddMonthsMoves(current, step);
      DatesStep(AddMonths(current, step), end, step);
    }
  }

  /** Each date is one step on from the one before it; the next step would pass the end. */
  lemma ScheduleSteps(s: Schedule)
    requires ValidSchedule(s)
    ensures var ds, step := ScheduleDates(s), FrequencyMonths(s.frequency);
            && (forall i :: 0 <= i < |ds| ==> Valid(ds[i]) && DayNumber(ds[i]) <= DayNumber(s.end))
            && (forall i :: 0 <= i < |ds| ==> ds[i] == AddMonths(Prior(s, ds, i), step))
            && DayNumber(AddMonths(Prior(s, ds, |ds|), step)) > DayNumber(s.end)
  {
    hide AddMonths, DayNumber, Valid, DatesFrom;
    var step := FrequencyMonths(s.frequency);
    AddMonthsIsMakeDay(s.start, step);
    DatesStep(AddMonths(s.start, step), s.end, step);
  }

  /** The dates strictly increase inside (start, end], at least 28 days a month apart. */
  lemma ScheduleAscends(s: Schedule)
    requires ValidSchedule(s)
    ensures var ds := ScheduleDates(s);
            forall i :: 0 <= i < |ds| ==>
              DayNumber(Prior(s, ds, i)) + 28 * FrequencyMonths(s.frequency) <= DayNumber(ds[i]) <= DayNumber(s.end)
  {
    hide AddMonths, DayNumber, Valid, ScheduleDates;
    var ds, step := ScheduleDates(s), FrequencyMonths(s.frequency);
    ScheduleSteps(s);
    forall i | 0 <= i < |ds|
      ensures DayNumber(Prior(s, ds, i)) + 28 * step <= DayNumber(ds[i])
    {
      AddMonthsMoves(Prior(s, ds, i), step);
    }
  }

  /** The i-th date said without iterating: the start plus i + 1 whole steps. */
  ghost predicate OnGrid(s: Schedule)
    requires ValidSchedule(s)
  {
    var ds := ScheduleDates(s);
    forall i :: 0 <= i < |ds| ==> ds[i] == AddMonths(s.start, (i + 1) * FrequencyMonths(s.frequency))
  }

  /** The length of the month i steps after the start. */
  function GridLength(s: Schedule, i: int): int {
    MonthLength(MonthIndex(s.start) + i * FrequencyMonths(s.frequency))
  }

  /** Wherever the start day overflows a month, the next one overflows by the same number of days. */
  ghost predicate NoDrift(s: Schedule, n: int) {
    forall j :: 1 <= j < n ==> s.start.day <= GridLength(s, j) || GridLength(s, j + 1) == GridLength(s, j)
  }

  lemma GridStep(s: Schedule, i: int)
    requires ValidSchedule(s)
    ensures var step := FrequencyMonths(s.frequency);
            AddMonths(AddMonths(s.start, i * step), step) == AddMonths(s.start, (i + 1) * step)
            <==> (s.start.day <= GridLength(s, i) || GridLength(s, i + 1) == GridLength(s, i))
  {
    hide MonthLength, FrequencyMonths, AddMonths, MonthIndex;
    var step := FrequencyMonths(s.frequency);
    var d := s.start;
    var c := AddMonths(d, i * step);
    assert (i + 1) * step == i * step + step;
    AddMonthsIndex(d, i * step);
    AddMonthsIndex(d, (i + 1) * step);
    AddMonthsIndex(c, step);
    SameDate(AddMonths(c, step), AddMonths(d, (i + 1) * step));
    if d.day <= GridLength(s, i) {
      AddMonthsCompose(d, i * step, step);
    }
  }

  /** Iterating month steps gives the grid of whole steps exactly when no overflow drifts. */
  lemma OnGridIffNoDrift(s: Schedule)
    requires ValidSchedule(s)
    ensures OnGrid(s) <==> NoDrift(s, |ScheduleDates(s)|)
  {
    hide AddMonths, DayNumber, Valid, ScheduleDates, GridLength, FrequencyMonths;
    var ds, step := ScheduleDates(s), FrequencyMonths(s.frequency);
    ScheduleSteps(s);
    if NoDrift(s, |ds|) {
      GridFrom(s, |ds|);
    }
    if OnGrid(s) {
      forall j | 1 <= j < |ds|
        ensures s.start.day <= GridLength(s, j) || GridLength(s, j + 1) == GridLength(s, j)
      {
        assert ds[j - 1] == AddMonths(s.start, j * step);
        assert ds[j] == AddMonths(ds[j - 1], step) && ds[j] == AddMonths(s.start, (j + 1) * step);
        GridStep(s, j);
      }
    }
  }

  lemma {:induction false} GridFrom(s: Schedule, n: nat)
    requires ValidSchedule(s) && n <= |ScheduleDates(s)| && NoDrift(s, n)
    ensures forall i :: 0 <= i < n ==> ScheduleDates(s)[i] == AddMonths(s.start, (i + 1) * FrequencyMonths(s.frequency))
  {
    hide AddMonths, DayNumber, Valid, ScheduleDates, GridLength, FrequencyMonths;
    var ds, step := ScheduleDates(s), FrequencyMonths(s.frequency);
    if n > 0 {
      ScheduleSteps(s);
      GridFrom(s, n - 1);
      assert ds[n - 1] == AddMonths(Prior(s, ds, n - 1), step);
      if n > 1 {
        assert ds[n - 2] == AddMonths(s.start, (n - 1) * step);
        GridStep(s, n - 1);
      }
    }
  }

  /** From the first 28 days of a month nothing overflows. */
  lemma EarlyStartOnGrid(s: Schedule)
    requires ValidSchedule(s) && s.start.day <= 28
    ensures OnGrid(s)
  {
    OnGridIffNoDrift(s);
  }

  /** Monthly from 31 January 2026: the second date is 3 April, not 31 March. */
  lemma MonthEndDrifts()
    ensures var s := Schedule(Date(2026, 0, 31), Date(2026, 4, 1), Monthly);
            ValidSchedule(s) && !OnGrid(s) && ScheduleDates(s) == [Date(2026, 2, 3), Date(2026, 3, 3)]
  {
    var s := Schedule(Date(2026, 0, 31), Date(2026, 4, 1), Monthly);
    hide AddMonths, DayNumber;
    var a, b := Date(2026, 2, 3), Date(2026, 3, 3);
    DriftDates();
    assert DatesFrom(AddMonths(b, 1), s.end, 1) == [];
    assert DatesFrom(b, s.end, 1) == [b];
    assert ScheduleDates(s) == [a, b];
    assert ScheduleDates(s)[1] != AddMonths(s.start, (1 + 1) * FrequencyMonths(s.frequency));
  }

  lemma DriftDates()
    ensures AddMonths(Date(2026, 0, 31), 1) == Date(2026, 2, 3) && AddMonths(Date(2026, 2, 3), 1) == Date(2026, 3, 3)
    ensures AddMonths(Date(2026, 3, 3), 1) == Date(2026, 4, 3) && AddMonths(Date(2026, 0, 31), 2) == Date(2026, 2, 31)
    ensures Valid(Date(2026, 0, 31)) && Valid(Date(2026, 4, 1)) && Valid(Date(2026, 2, 3)) && Valid(Date(2026, 3, 3))
        && Valid(Date(2026, 4, 3))
    ensures DayNumber(Date(2026, 4, 3)) > DayNumber(Date(2026, 4, 1))
    ensures DayNumber(Date(2026, 4, 1)) > DayNumber(Date(2026, 3, 3)) > DayNumber(Date(2026, 2, 3))
  {
    hide MonthStart, DayFromYear;
    assert MonthLength(12 * 2026 + 1) == 28;
    MonthsTile(12 * 2026 + 2);
    MonthsTile(12 * 2026 + 3);
  }

  // ----- Day counts and fixed coupons -----

  function Min(a: int, b: int): int { if a < b then a else b }

  function YearFraction(start: Date, end: Date, convention: DayCount): real {
    match convention
    case Act360 => (DayNumber(end) - DayNumber(start)) as real / 360.0
    case Act365 => (DayNumber(end) - DayNumber(start)) as real / 365.0
    case Thirty360 =>
      var d1, d2 := Min(start.day, 30), Min(end.day, 30);
      ((end.year - start.year) * 360 + (end.month - start.month) * 30 + (d2 - d1)) as real / 360.0
    case ThirtyE360 =>
      var d1, d2 := Min(start.day, 30), Min(end.day, 30);
      ((end.year - start.year) * 360 + (end.month - start.month) * 30 + (d2 - d1)) as real / 360.0
  }

  /** Year fractions of adjoining periods add up, under every convention. */
  lemma YearFractionAdds(a: Date, b: Date, c: Date, convention: DayCount)
    ensures YearFraction(a, b, convention) + YearFraction(b, c, convention) == YearFraction(a, c, convention)
    ensures YearFraction(a, a, convention) == 0.0
  {
  }

  function Total(cfs: seq<Cashflow>): real {
    if cfs == [] then 0.0 else Total(cfs[..|cfs| - 1]) + cfs[|cfs| - 1].amount
  }

  /** The end of the last paid period. */
  function LastDate(s: Schedule): Date
    requires ValidSchedule(s)
  {
    Prior(s, ScheduleDates(s), |ScheduleDates(s)|)
  }

  function Coupon(rate: real, notional: real, convention: DayCount, periodStart: Date, periodEnd: Date): Cashflow {
    Cashflow(periodEnd, notional * rate * YearFraction(periodStart, periodEnd, convention))
  }

  /** The coupons of the first periods of the schedule. */
  ghost predicate FixedCoupons(cfs: seq<Cashflow>, rate: real, notional: real, convention: DayCount, s: Schedule)
    requires ValidSchedule(s)
  {
    var ds := ScheduleDates(s);
    && |cfs| <= |ds|
    && forall i :: 0 <= i < |cfs| ==> cfs[i] == Coupon(rate, notional, convention, Prior(s, ds, i), ds[i])
  }

  method CalcFixedCashflows(rate: real, notional: real, convention: DayCount, s: Schedule) returns (cfs: seq<Cashflow>)
    requires ValidSchedule(s)
    ensures FixedCoupons(cfs, rate, notional, convention, s) && |cfs| == |ScheduleDates(s)|
  {
    hide AddMonths, DayNumber, Valid, ScheduleDates, YearFraction;
    var paymentDates := GenerateScheduleDates(s.start, s.end, s.frequency);
    assert s == Schedule(s.start, s.end, s.frequency);
    cfs := [];
    var periodStart := s.start;
    for i := 0 to |paymentDates|
      invariant periodStart == Prior(s, paymentDates, i)
      invariant |cfs| == i && FixedCoupons(cfs, rate, notional, convention, s)
    {
      var periodEnd := paymentDates[i];
      var yf := YearFraction(periodStart, periodEnd, convention);
      var cf := Cashflow(periodEnd, notional * rate * yf);
      assert cf == Coupon(rate, notional, convention, periodStart, periodEnd);
      hide Coupon;
      cfs := cfs + [cf];
      periodStart := periodEnd;
    }
  }

  /** The coupons paid so far add up to one simple coupon over the whole time covered. */
  lemma {:induction false} CouponsTelescope(cfs: seq<Cashflow>, rate: real, notional: real, convention: DayCount,
                                            s: Schedule)
    requires ValidSchedule(s) && FixedCoupons(cfs, rate, notional, convention, s)
    ensures Total(cfs) == Coupon(rate, notional, convention, s.start, Prior(s, ScheduleDates(s), |cfs|)).amount
  {
    hide AddMonths, DayNumber, Valid, ScheduleDates, YearFraction;
    var ds := ScheduleDates(s);
    if cfs == [] {
      YearFractionAdds(s.start, s.start, s.start, convention);
    } else {
      var n := |cfs| - 1;
      CouponsTelescope(cfs[..n], rate, notional, convention, s);
      CouponsAdd(rate, notional, convention, s.start, Prior(s, ds, n), ds[n]);
    }
  }

  lemma CouponsAdd(rate: real, notional: real, convention: DayCount, a: Date, b: Date, c: Date)
    ensures Coupon(rate, notional, convention, a, b).amount + Coupon(rate, notional, convention, b, c).amount
            == Coupon(rate, notional, convention, a, c).amount
  {
    YearFractionAdds(a, b, c, convention);
    hide YearFraction;
    Distribute(notional * rate, YearFraction(a, b, convention), YearFraction(b, c, convention),
               YearFraction(a, c, convention));
  }

  lemma Distribute(q: real, a: real, b: real, c: real)
    requires a + b == c
    ensures q * a + q * b == q * c
  {
  }

  /** A fixed leg pays, in all, the one coupon that would run from its start to its last date. */
  lemma FixedLegTotal(cfs: seq<Cashflow>, rate: real, notional: real, convention: DayCount, s: Schedule)
    requires ValidSchedule(s) && FixedCoupons(cfs, rate, notional, convention, s) && |cfs| == |ScheduleDates(s)|
    ensures Total(cfs) == Coupon(rate, notional, convention, s.start, LastDate(s)).amount
  {
    hide AddMonths, DayNumber, Valid, ScheduleDates, Coupon;
    CouponsTelescope(cfs, rate, notional, convention, s);
  }
}
