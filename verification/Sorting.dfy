/** Stable sorting by date, as the source's `sort` calls do it. */
module Sorting {
  /** An element goes after the earlier ones of its date. */
  function Insert<T>(x: T, s: seq<T>, date: T -> int): seq<T> {
    if s == [] || date(x) < date(s[0]) then [x] + s else [s[0]] + Insert(x, s[1..], date)
  }

  function SortBy<T>(s: seq<T>, date: T -> int): seq<T> {
    if s == [] then [] else Insert(s[|s| - 1], SortBy(s[..|s| - 1], date), date)
  }

  ghost predicate Ordered<T>(s: seq<T>, date: T -> int) {
    forall i, j :: 0 <= i < j < |s| ==> date(s[i]) <= date(s[j])
  }

  lemma {:induction false} InsertKeeps<T>(x: T, s: seq<T>, date: T -> int)
    ensures multiset(Insert(x, s, date)) == multiset(s) + multiset{x}
    ensures forall y :: y in Insert(x, s, date) ==> y == x || y in s
  {
    if s != [] && !(date(x) < date(s[0])) {
      InsertKeeps(x, s[1..], date);
      assert s == [s[0]] + s[1..];
    }
  }

  lemma {:induction false} InsertSorts<T>(x: T, s: seq<T>, date: T -> int)
    requires Ordered(s, date)
    ensures Ordered(Insert(x, s, date), date)
  {
    if s != [] && !(date(x) < date(s[0])) {
      InsertSorts(x, s[1..], date);
      InsertKeeps(x, s[1..], date);
      assert forall y :: y in Insert(x, s[1..], date) ==> date(s[0]) <= date(y);
    }
  }

  /** Sorting permutes and orders. */
  lemma {:induction false} SortSorts<T>(s: seq<T>, date: T -> int)
    ensures Ordered(SortBy(s, date), date) && multiset(SortBy(s, date)) == multiset(s)
  {
    hide Insert, Ordered;
    if s == [] {
      SortsNone<T>(date);
    } else {
      var n := |s| - 1;
      SortSorts(s[..n], date);
      InsertSorts(s[n], SortBy(s[..n], date), date);
      InsertKeeps(s[n], SortBy(s[..n], date), date);
      assert s == s[..n] + [s[n]];
    }
  }

  lemma SortsNone<T>(date: T -> int)
    ensures Ordered([], date)
  {
  }
}
