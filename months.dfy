/** The dashboard's six-month series: the current calendar month and the five
    before it, each carrying a total over the records whose timestamp falls in
    that month (month and year both matching). */
module Months {
  import opened Records
  import opened Folds

  /** Months counted from January of year 0. */
  function Index(ym: YearMonth): int
  {
    ym.year * 12 + ym.month
  }

  lemma IndexInjective(a: YearMonth, b: YearMonth)
    requires Index(a) == Index(b)
    ensures a == b
  {
  }

  /** The calendar month a timestamp falls in. */
  function MonthOf(t: Stamp): YearMonth
  {
    YearMonth(t.year, t.month)
  }

  /** `new Date(now.getFullYear(), now.getMonth() - i, 1)`: a month index
      below 0 rolls back into the previous years. */
  function MonthsBack(now: YearMonth, i: int): (r: YearMonth)
    ensures Index(r) == Index(now) - i
  {
    var n := Index(now) - i;
    YearMonth(n / 12, n % 12)
  }

  /** The calendar month after `ym`. */
  function NextMonth(ym: YearMonth): YearMonth
  {
    if ym.month == 11 then YearMonth(ym.year + 1, 0) else YearMonth(ym.year, ym.month + 1)
  }

  /** `if (!t) return false; return d.getMonth() === month.getMonth() && d.getFullYear() === month.getFullYear();` */
  predicate InMonth(t: Option<Stamp>, ym: YearMonth)
  {
    t.Some? && t.value.month == ym.month && t.value.year == ym.year
  }

  /** The filter callback of a monthly series, for records whose timestamp `at` reads. */
  function DatedIn<T>(at: T -> Option<Stamp>, ym: YearMonth): T -> bool
  {
    x => InMonth(at(x), ym)
  }

  /** The record's timestamp is present and at most five months before `now`,
      and not after it. */
  function InWindow<T>(at: T -> Option<Stamp>, now: YearMonth): T -> bool
  {
    x => at(x).Some? && Index(now) - 5 <= Index(MonthOf(at(x).value)) <= Index(now)
  }

  /** One entry of a series: the month (it stands for the "Mon YYYY" label)
      and its value. */
  datatype MonthValue = MonthValue(month: YearMonth, value: int)

  /** The six entries, oldest first: five months before `now`, consecutive,
      ending with `now`, each carrying `f` of its month. */
  function LastSixMonths(now: YearMonth, f: YearMonth -> int): (r: seq<MonthValue>)
    ensures |r| == 6
    ensures r[5].month == now
    ensures forall k :: 0 <= k < 5 ==> r[k + 1].month == NextMonth(r[k].month)
    ensures forall k :: 0 <= k < 6 ==> r[k].value == f(r[k].month)
  {
    var r := seq(6, k requires 0 <= k < 6 => var ym := MonthsBack(now, 5 - k); MonthValue(ym, f(ym)));
    assert r[5].month == MonthsBack(now, 0);
    IndexInjective(r[5].month, now);
    forall k | 0 <= k < 5 ensures r[k + 1].month == NextMonth(r[k].month) {
      var a := r[k].month;
      assert a == MonthsBack(now, 5 - k) && r[k + 1].month == MonthsBack(now, 5 - (k + 1));
      assert Index(NextMonth(a)) == Index(a) + 1;
      IndexInjective(r[k + 1].month, NextMonth(a));
    }
    r
  }

  /** The `for (let i = 5; i >= 0; i--)` loop that pushes one entry per month. */
  method Series(now: YearMonth, f: YearMonth -> int) returns (last6Months: seq<MonthValue>)
    ensures last6Months == LastSixMonths(now, f)
  {
    last6Months := [];
    var i := 5;
    while i >= 0
      invariant -1 <= i <= 5
      invariant last6Months == LastSixMonths(now, f)[..5 - i]
    {
      var month := MonthsBack(now, i);
      last6Months := last6Months + [MonthValue(month, f(month))];
      i := i - 1;
    }
  }

  /** The values of a series added up. */
  function Total(series: seq<MonthValue>): int
  {
    if series == [] then 0 else Total(series[..|series| - 1]) + series[|series| - 1].value
  }

  /** `f` added up over the first `n` months of the series ending at `now`. */
  function LeadingSum(now: YearMonth, f: YearMonth -> int, n: nat): int
    requires n <= 6
  {
    if n == 0 then 0 else LeadingSum(now, f, n - 1) + f(MonthsBack(now, 5 - (n - 1)))
  }

  lemma {:induction false} SeriesLeadingSum(now: YearMonth, f: YearMonth -> int, n: nat)
    requires n <= 6
    ensures Total(LastSixMonths(now, f)[..n]) == LeadingSum(now, f, n)
  {
    var r := LastSixMonths(now, f);
    if n > 0 {
      SeriesLeadingSum(now, f, n - 1);
      var s := r[..n];
      assert s[..n - 1] == r[..n - 1];
      var m := MonthsBack(now, 5 - (n - 1));
      assert s[n - 1] == MonthValue(m, f(m));
    }
  }

  /** The weight `w` added up over the records dated in month `ym`:
      `xs.filter(x => dated in ym).reduce((sum, x) => sum + w(x), 0)`. */
  function MonthTotal<T(==)>(xs: seq<T>, at: T -> Option<Stamp>, w: T -> int, ym: YearMonth): int
  {
    Sum(Filter(xs, DatedIn(at, ym)), w)
  }

  function MonthTotalOf<T(==)>(xs: seq<T>, at: T -> Option<Stamp>, w: T -> int): YearMonth -> int
  {
    ym => MonthTotal(xs, at, w, ym)
  }

  /** The number of records dated in month `ym`: `xs.filter(x => dated in ym).length`. */
  function MonthCount<T(==)>(xs: seq<T>, at: T -> Option<Stamp>, ym: YearMonth): int
  {
    |Filter(xs, DatedIn(at, ym))|
  }

  function MonthCountOf<T(==)>(xs: seq<T>, at: T -> Option<Stamp>): YearMonth -> int
  {
    ym => MonthCount(xs, at, ym)
  }

  lemma MonthTotalSnoc<T>(xs: seq<T>, x: T, at: T -> Option<Stamp>, w: T -> int, ym: YearMonth)
    ensures MonthTotal(xs + [x], at, w, ym) == MonthTotal(xs, at, w, ym) + (if InMonth(at(x), ym) then w(x) else 0)
  {
    FilterSnoc(xs, x, DatedIn(at, ym));
    if InMonth(at(x), ym) {
      SumSnoc(Filter(xs, DatedIn(at, ym)), x, w);
    }
  }

  /** Adding one record adds its weight to the first `n` months exactly when
      it is dated in one of them. */
  lemma {:induction false} LeadingSumSnoc<T>(xs: seq<T>, x: T, at: T -> Option<Stamp>, w: T -> int, now: YearMonth, n: nat)
    requires n <= 6
    ensures LeadingSum(now, MonthTotalOf(xs + [x], at, w), n) == LeadingSum(now, MonthTotalOf(xs, at, w), n)
      + (if at(x).Some? && Index(now) - 5 <= Index(MonthOf(at(x).value)) < Index(now) - 5 + n then w(x) else 0)
  {
    if n > 0 {
      LeadingSumSnoc(xs, x, at, w, now, n - 1);
      var ym := MonthsBack(now, 5 - (n - 1));
      MonthTotalSnoc(xs, x, at, w, ym);
      if at(x).Some? && Index(MonthOf(at(x).value)) == Index(ym) {
        IndexInjective(MonthOf(at(x).value), ym);
      }
    }
  }

  lemma {:induction false} LeadingSumEmpty<T>(at: T -> Option<Stamp>, w: T -> int, now: YearMonth, n: nat)
    requires n <= 6
    ensures LeadingSum(now, MonthTotalOf([], at, w), n) == 0
  {
    if n > 0 {
      LeadingSumEmpty(at, w, now, n - 1);
    }
  }

  /** Every record dated in the six months is counted in exactly one of
      them, and no other record is counted: the six month totals add up to
      the total over the records dated in the window. */
  lemma {:induction false} SixMonthsCoverWindow<T>(xs: seq<T>, at: T -> Option<Stamp>, w: T -> int, now: YearMonth)
    ensures LeadingSum(now, MonthTotalOf(xs, at, w), 6) == Sum(Filter(xs, InWindow(at, now)), w)
  {
    if xs == [] {
      LeadingSumEmpty(at, w, now, 6);
    } else {
      var init, last := xs[..|xs| - 1], xs[|xs| - 1];
      assert xs == init + [last];
      SixMonthsCoverWindow(init, at, w, now);
      LeadingSumSnoc(init, last, at, w, now, 6);
      FilterSnoc(init, last, InWindow(at, now));
      if InWindow(at, now)(last) {
        SumSnoc(Filter(init, InWindow(at, now)), last, w);
      }
    }
  }

  /** A series of month totals adds up to the total over the records dated
      in its window. */
  lemma SeriesTotalIsWindowTotal<T>(xs: seq<T>, at: T -> Option<Stamp>, w: T -> int, now: YearMonth)
    ensures Total(LastSixMonths(now, MonthTotalOf(xs, at, w))) == Sum(Filter(xs, InWindow(at, now)), w)
  {
    var r := LastSixMonths(now, MonthTotalOf(xs, at, w));
    SeriesLeadingSum(now, MonthTotalOf(xs, at, w), 6);
    assert r[..6] == r;
    SixMonthsCoverWindow(xs, at, w, now);
  }

  lemma {:induction false} LeadingCountIsTotal<T>(xs: seq<T>, at: T -> Option<Stamp>, now: YearMonth, n: nat)
    requires n <= 6
    ensures LeadingSum(now, MonthCountOf(xs, at), n) == LeadingSum(now, MonthTotalOf(xs, at, One), n)
  {
    if n > 0 {
      LeadingCountIsTotal(xs, at, now, n - 1);
      SumOnes(Filter(xs, DatedIn(at, MonthsBack(now, 5 - (n - 1)))));
    }
  }

  /** A series of month counts adds up to the number of records dated in its
      window: each is counted once, and undated ones never. */
  lemma SeriesCountIsWindowCount<T>(xs: seq<T>, at: T -> Option<Stamp>, now: YearMonth)
    ensures Total(LastSixMonths(now, MonthCountOf(xs, at))) == |Filter(xs, InWindow(at, now))|
  {
    var r := LastSixMonths(now, MonthCountOf(xs, at));
    SeriesLeadingSum(now, MonthCountOf(xs, at), 6);
    assert r[..6] == r;
    LeadingCountIsTotal(xs, at, now, 6);
    SixMonthsCoverWindow(xs, at, One, now);
    SumOnes(Filter(xs, InWindow(at, now)));
  }
}
