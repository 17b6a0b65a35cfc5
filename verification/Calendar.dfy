/**
 Civil dates as the pricing engine's Date objects use them: whole days, months counted from 0, day
 numbers and month overflow as in section 21.4.1 of ECMA-262.
 */
module Calendar {
  datatype Date = Date(year: int, month: int, day: int)

  predicate Leap(y: int) {
    y % 4 == 0 && (y % 100 != 0 || y % 400 == 0)
  }

  /** The length of the month with index 12 * year + month. */
  function MonthLength(index: int): (n: int)
    ensures 28 <= n <= 31
  {
    var y, m := index / 12, index % 12;
    if m == 1 then (if Leap(y) then 29 else 28)
    else if m in {3, 5, 8, 10} then 30
    else 31
  }

  function MonthIndex(d: Date): int { 12 * d.year + d.month }

  predicate Valid(d: Date) {
    0 <= d.month < 12 && 1 <= d.day <= MonthLength(MonthIndex(d))
  }

  /** Day number of the first of January, day 0 being 1 January 1970. */
  function DayFromYear(y: int): int {
    365 * (y - 1970) + (y - 1969) / 4 - (y - 1901) / 100 + (y - 1601) / 400
  }

  function DaysBeforeMonth(m: int, leap: bool): int
    requires 0 <= m < 12
  {
    [0, 31, 59, 90, 120, 151, 181, 212, 243, 273, 304, 334][m] + (if leap && m >= 2 then 1 else 0)
  }

  /** Day number of the first of the month with this index. */
  function MonthStart(index: int): int {
    DayFromYear(index / 12) + DaysBeforeMonth(index % 12, Leap(index / 12))
  }

  function DayNumber(d: Date): int { MonthStart(MonthIndex(d)) + d.day - 1 }

  lemma FloorBy4(y: int)
    ensures (y - 1968) / 4 == (y - 1969) / 4 + (if y % 4 == 0 then 1 else 0)
  {
  }

  lemma FloorBy100(y: int)
    ensures (y - 1900) / 100 == (y - 1901) / 100 + (if y % 100 == 0 then 1 else 0)
  {
  }

  lemma FloorBy400(y: int)
    ensures (y - 1600) / 400 == (y - 1601) / 400 + (if y % 400 == 0 then 1 else 0)
  {
  }

  lemma LeapRule(y: int)
    ensures (if Leap(y) then 1 else 0) ==
            (if y % 4 == 0 then 1 else 0) - (if y % 100 == 0 then 1 else 0) + (if y % 400 == 0 then 1 else 0)
  {
    CenturyIsFourth(y);
    FourthCenturyIsCentury(y);
  }

  lemma CenturyIsFourth(y: int)
    ensures y % 100 == 0 ==> y % 4 == 0
  {
    if y % 100 == 0 {
      assert y == 4 * (25 * (y / 100));
    }
  }

  lemma FourthCenturyIsCentury(y: int)
    ensures y % 400 == 0 ==> y % 100 == 0
  {
    if y % 400 == 0 {
      assert y == 100 * (4 * (y / 400));
    }
  }

  lemma YearLength(y: int)
    ensures DayFromYear(y + 1) == DayFromYear(y) + (if Leap(y) then 366 else 365)
  {
    FloorBy4(y);
    FloorBy100(y);
    FloorBy400(y);
    LeapRule(y);
    hide Leap;
  }

  /** The calendar has no gap: each month starts where the one before it ends. */
  lemma MonthsTile(index: int)
    ensures MonthStart(index + 1) == MonthStart(index) + MonthLength(index)
  {
    var y, m := index / 12, index % 12;
    if m == 11 {
      YearLength(y);
      assert (index + 1) / 12 == y + 1 && (index + 1) % 12 == 0;
    } else {
      assert (index + 1) / 12 == y && (index + 1) % 12 == m + 1;
    }
  }

  /** Later months start later, by at least 28 days each. */
  lemma {:induction false} MonthsAscend(a: int, k: nat)
    ensures MonthStart(a + k) >= MonthStart(a) + 28 * k
    decreases k
  {
    hide MonthStart, MonthLength;
    if k > 0 {
      MonthsAscend(a, k - 1);
      MonthsTile(a + k - 1);
    }
  }

  /** `setMonth(month + k)`: a day past the end of the target month runs over into the next one. */
  function AddMonths(d: Date, k: int): Date {
    var index := MonthIndex(d) + k;
    if d.day <= MonthLength(index) then Date(index / 12, index % 12, d.day)
    else Date((index + 1) / 12, (index + 1) % 12, d.day - MonthLength(index))
  }

  /** AddMonths is the valid date that MakeDay(year, month + k, day) denotes. */
  lemma AddMonthsIsMakeDay(d: Date, k: int)
    requires Valid(d)
    ensures Valid(AddMonths(d, k))
    ensures DayNumber(AddMonths(d, k)) == MonthStart(MonthIndex(d) + k) + d.day - 1
  {
    hide MonthStart, MonthLength;
    var index := MonthIndex(d) + k;
    MonthsTile(index);
    assert 12 * (index / 12) + index % 12 == index;
    assert 12 * ((index + 1) / 12) + (index + 1) % 12 == index + 1;
  }

  /** Adding k months moves at least 28 * k days, whatever overflows. */
  lemma AddMonthsMoves(d: Date, k: nat)
    requires Valid(d)
    ensures DayNumber(AddMonths(d, k)) >= DayNumber(d) + 28 * k
  {
    hide MonthStart, MonthLength, AddMonths;
    AddMonthsIsMakeDay(d, k);
    MonthsAscend(MonthIndex(d), k);
  }

  /** The month index a step lands on, one later when the day overflows. */
  lemma AddMonthsIndex(d: Date, k: int)
    ensures var c, index := AddMonths(d, k), MonthIndex(d) + k;
            && 0 <= c.month < 12
            && MonthIndex(c) == (if d.day <= MonthLength(index) then index else index + 1)
            && c.day == (if d.day <= MonthLength(index) then d.day else d.day - MonthLength(index))
  {
    hide MonthLength;
    var index := MonthIndex(d) + k;
    assert 12 * (index / 12) + index % 12 == index;
    assert 12 * ((index + 1) / 12) + (index + 1) % 12 == index + 1;
  }

  lemma SameDate(c: Date, d: Date)
    requires 0 <= c.month < 12 && 0 <= d.month < 12
    ensures c == d <==> MonthIndex(c) == MonthIndex(d) && c.day == d.day
  {
  }

  /** Two additions compose unless the first one overflowed. */
  lemma AddMonthsCompose(d: Date, j: int, k: int)
    requires Valid(d) && d.day <= MonthLength(MonthIndex(d) + j)
    ensures AddMonths(AddMonths(d, j), k) == AddMonths(d, j + k)
  {
    hide MonthLength;
    AddMonthsIndex(d, j);
  }
}
