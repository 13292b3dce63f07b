/**
 * The reports page (frontend/src/features/reports/ReportsPage.jsx): the transactions of
 * the chosen period, the income and expense bars of the last seven days, and the
 * expenses of the period grouped by category. The clock is a parameter; dates are local
 * wall-clock milliseconds, so a day is a whole number of `DAY`s.
 */
module ReportsPage {
  import opened Wrappers
  import opened Folds
  import opened Grouping
  import opened FrontModel
  import opened Calculations

  /** `parseISO` of a `YYYY-MM-DD` input: local midnight of that day. */
  function Midnight(day: int): (ms: int)
    ensures Day(ms) == day
  {
    day * DAY
  }

  /**
   * `date >= start && date <= end`. A bound that does not parse is `Invalid Date`
   * (None here), and every comparison with it is false.
   */
  function InPeriod(start: Option<int>, end: Option<int>): Tx -> bool {
    (t: Tx) => start.Some? && end.Some? && start.value <= t.date <= end.value
  }

  /** `filteredTransactions`: the transactions between the two bounds, both included, in input order. */
  function FilteredTransactions(ts: seq<Tx>, start: Option<int>, end: Option<int>): (r: seq<Tx>)
    ensures forall t :: t in r <==> t in ts && start.Some? && end.Some? && start.value <= t.date <= end.value
    ensures start.None? || end.None? ==> r == []
  {
    var r := Filter(ts, InPeriod(start, end));
    forall t ensures t in r <==> t in ts && start.Some? && end.Some? && start.value <= t.date <= end.value {
      FilterIn(ts, InPeriod(start, end), t);
    }
    assert r != [] ==> r[0] in r;
    r
  }

  /**
   * Both bounds are midnights, so of the transactions dated on the last day of the
   * period only one made exactly at midnight is kept; the first day is kept whole.
   */
  lemma LastDayCutOff(ts: seq<Tx>, startDay: int, endDay: int, t: Tx)
    requires t in ts && startDay < endDay
    ensures Day(t.date) == endDay ==>
              (t in FilteredTransactions(ts, Some(Midnight(startDay)), Some(Midnight(endDay))) <==> t.date == Midnight(endDay))
    ensures Day(t.date) == startDay ==> t in FilteredTransactions(ts, Some(Midnight(startDay)), Some(Midnight(endDay)))
  {
    var x := t.date;
    assert x == Day(x) * DAY + x % DAY;
    if Day(x) == startDay {
      assert Midnight(startDay) <= x < Midnight(startDay + 1);
      assert Midnight(startDay + 1) <= Midnight(endDay);
    }
  }

  /** The period filter keeps nothing the whole-day filter of the dashboard would drop. */
  lemma PeriodWithinDays(ts: seq<Tx>, startDay: int, endDay: int, t: Tx)
    ensures t in FilteredTransactions(ts, Some(Midnight(startDay)), Some(Midnight(endDay))) ==>
              t in FilterByDateRange(ts, Midnight(startDay), Midnight(endDay))
  {
  }

  function IsKind(k: string): Tx -> bool {
    (t: Tx) => t.kind == k
  }

  function AmountOf(t: Tx): int {
    t.amount
  }

  /**
   * One bar: the transactions of day `d`, then those of type `k`, their amounts added
   * up (`filter(isSameDay).filter(type === k).reduce(+ amount, 0)`).
   */
  function DayTotal(ts: seq<Tx>, d: int, k: string): int {
    Sum(Filter(Filter(ts, OnDay(d)), IsKind(k)), AmountOf)
  }

  /** The term of a one-day total: the amount of a transaction of type `k` made on day `d`. */
  function OnDayOfKind(d: int, k: string): Tx -> int {
    (t: Tx) => if Day(t.date) == d && t.kind == k then t.amount else 0
  }

  /** A bar is the one-pass sum of the amounts of type `k` on day `d`. */
  lemma DayTotalIsSum(ts: seq<Tx>, d: int, k: string)
    ensures DayTotal(ts, d, k) == Sum(ts, OnDayOfKind(d, k))
  {
    var day := Filter(ts, OnDay(d));
    SumFilter(day, IsKind(k), AmountOf, AmountIf(k));
    SumFilter(ts, OnDay(d), AmountIf(k), OnDayOfKind(d, k));
  }

  /** A transfer adds to no bar. */
  lemma TransferNotCharted(ts: seq<Tx>, t: Tx, d: int, k: string)
    requires t.kind == "transfer" && (k == "income" || k == "expense")
    ensures DayTotal(ts + [t], d, k) == DayTotal(ts, d, k)
  {
    DayTotalIsSum(ts + [t], d, k);
    DayTotalIsSum(ts, d, k);
    assert (ts + [t])[..|ts|] == ts;
  }

  /** The bars of type `k` for the `n` days from day `lo`. */
  function Bars(ts: seq<Tx>, lo: int, n: nat, k: string): (r: seq<int>)
    ensures |r| == n
    ensures forall i :: 0 <= i < n ==> r[i] == DayTotal(ts, lo + i, k)
  {
    seq(n, i requires 0 <= i < n => DayTotal(ts, lo + i, k))
  }

  /** The bars of one more day are the bars so far and that day's bar. */
  lemma BarsSnoc(ts: seq<Tx>, lo: int, n: nat, k: string)
    ensures Bars(ts, lo, n + 1, k) == Bars(ts, lo, n, k) + [DayTotal(ts, lo + n, k)]
  {
  }

  /** The term of a total over the `n` days from day `lo`. */
  function InWindow(lo: int, n: nat, k: string): Tx -> int {
    (t: Tx) => if lo <= Day(t.date) < lo + n && t.kind == k then t.amount else 0
  }

  /** Widening the window by its next day adds that day's total. */
  lemma WindowStep(ts: seq<Tx>, lo: int, n: nat, k: string)
    requires n >= 1
    ensures Sum(ts, InWindow(lo, n, k)) == Sum(ts, InWindow(lo, n - 1, k)) + Sum(ts, OnDayOfKind(lo + n - 1, k))
  {
    forall i | 0 <= i < |ts|
      ensures InWindow(lo, n, k)(ts[i]) == InWindow(lo, n - 1, k)(ts[i]) + OnDayOfKind(lo + n - 1, k)(ts[i])
    {
    }
    SumAdd(ts, InWindow(lo, n - 1, k), OnDayOfKind(lo + n - 1, k), InWindow(lo, n, k));
  }

  /** The one-pass day totals of the `n` days from day `lo`. */
  function DaySums(ts: seq<Tx>, lo: int, n: nat, k: string): seq<int> {
    seq(n, i requires 0 <= i < n => Sum(ts, OnDayOfKind(lo + i, k)))
  }

  /** The day totals add up to the window's total. */
  lemma {:induction false} DaySumsAddUp(ts: seq<Tx>, lo: int, n: nat, k: string)
    ensures Sum(DaySums(ts, lo, n, k), Id) == Sum(ts, InWindow(lo, n, k))
  {
    if n == 0 {
      SumZero(ts, InWindow(lo, 0, k));
    } else {
      DaySumsAddUp(ts, lo, n - 1, k);
      assert DaySums(ts, lo, n, k)[..n - 1] == DaySums(ts, lo, n - 1, k);
      WindowStep(ts, lo, n, k);
    }
  }

  /** The bars add up to the total of type `k` over the days they cover. */
  lemma BarsAddUp(ts: seq<Tx>, lo: int, n: nat, k: string)
    ensures Sum(Bars(ts, lo, n, k), Id) == Sum(ts, InWindow(lo, n, k))
  {
    forall i | 0 <= i < n ensures Bars(ts, lo, n, k)[i] == DaySums(ts, lo, n, k)[i] {
      DayTotalIsSum(ts, lo + i, k);
    }
    assert Bars(ts, lo, n, k) == DaySums(ts, lo, n, k);
    DaySumsAddUp(ts, lo, n, k);
  }

  /**
   * `barChartData`: the seven days from six days before today up to today, and for each
   * day, in that order, the income bar and the expense bar.
   */
  method BarChartData(ts: seq<Tx>, now: int) returns (days: seq<int>, income: seq<int>, expense: seq<int>)
    ensures |days| == 7 && forall i :: 0 <= i < 7 ==> days[i] == Day(now) - 6 + i
    ensures income == Bars(ts, Day(now) - 6, 7, "income")
    ensures expense == Bars(ts, Day(now) - 6, 7, "expense")
  {
    var lo := Day(now) - 6;
    days := seq(7, i requires 0 <= i < 7 => lo + i);
    income := [];
    expense := [];
    var i := 0;
    while i < |days|
      invariant 0 <= i <= 7
      invariant income == Bars(ts, lo, i, "income")
      invariant expense == Bars(ts, lo, i, "expense")
    {
      var day := days[i];
      assert day == lo + i;
      var dayTransactions := Filter(ts, OnDay(day));
      var inc := Sum(Filter(dayTransactions, IsKind("income")), AmountOf);
      var exp := Sum(Filter(dayTransactions, IsKind("expense")), AmountOf);
      assert inc == DayTotal(ts, lo + i, "income");
      assert exp == DayTotal(ts, lo + i, "expense");
      BarsSnoc(ts, lo, i, "income");
      BarsSnoc(ts, lo, i, "expense");
      income := income + [inc];
      expense := expense + [exp];
      i := i + 1;
    }
  }

  /** The seven income bars add up to the week's income, the expense bars to its expense. */
  lemma WeekAddsUp(ts: seq<Tx>, now: int)
    ensures Sum(Bars(ts, Day(now) - 6, 7, "income"), Id) == Sum(ts, InWindow(Day(now) - 6, 7, "income"))
    ensures Sum(Bars(ts, Day(now) - 6, 7, "expense"), Id) == Sum(ts, InWindow(Day(now) - 6, 7, "expense"))
  {
    BarsAddUp(ts, Day(now) - 6, 7, "income");
    BarsAddUp(ts, Day(now) - 6, 7, "expense");
  }

  /** `t.category || 'Lainnya'`. */
  function CategoryOf(t: Tx): string {
    OrElse(t.category, "Lainnya")
  }

  function Every(t: Tx): bool {
    true
  }

  /** The term of one slice: the amount of an expense filed under category `c`. */
  function ExpenseIn(c: string): Tx -> int {
    (t: Tx) => if t.kind == "expense" && CategoryOf(t) == c then t.amount else 0
  }

  /** The doughnut: `Object.keys(categories)` and `Object.values(categories)`. */
  datatype Doughnut = Doughnut(labels: seq<string>, data: seq<int>)

  /** The period's expenses, in order. */
  function Expenses(filtered: seq<Tx>): seq<Tx> {
    Filter(filtered, IsKind("expense"))
  }

  /** The categories grouped are those of the period's expenses. */
  lemma DoughnutLabels(filtered: seq<Tx>, totals: map<string, int>)
    requires totals.Keys == KeysOf(Expenses(filtered), Every, CategoryOf)
    ensures forall c :: c in totals <==> exists t :: t in filtered && t.kind == "expense" && CategoryOf(t) == c
  {
    var expenses := Expenses(filtered);
    forall c ensures c in totals <==> exists t :: t in filtered && t.kind == "expense" && CategoryOf(t) == c {
      if c in totals {
        var t :| t in expenses && Every(t) && CategoryOf(t) == c;
        FilterIn(filtered, IsKind("expense"), t);
      }
      if exists t :: t in filtered && t.kind == "expense" && CategoryOf(t) == c {
        var t :| t in filtered && t.kind == "expense" && CategoryOf(t) == c;
        FilterIn(filtered, IsKind("expense"), t);
        assert t in expenses && Every(t);
      }
    }
  }

  /** A category's total over the expenses is its slice of the whole period. */
  lemma DoughnutSlice(filtered: seq<Tx>, c: string)
    ensures Sum(Expenses(filtered), InGroup(Every, CategoryOf, AmountOf, c)) == Sum(filtered, ExpenseIn(c))
  {
    forall i | 0 <= i < |filtered|
      ensures ExpenseIn(c)(filtered[i]) == if IsKind("expense")(filtered[i]) then InGroup(Every, CategoryOf, AmountOf, c)(filtered[i]) else 0
    {
      var t := filtered[i];
      assert Every(t) && AmountOf(t) == t.amount;
    }
    SumFilter(filtered, IsKind("expense"), InGroup(Every, CategoryOf, AmountOf, c), ExpenseIn(c));
  }

  /** The sum over the expenses is the period's total expense. */
  lemma DoughnutTotal(filtered: seq<Tx>)
    ensures Sum(Expenses(filtered), Included(Every, AmountOf)) == CalculateTotals(filtered).expense
  {
    forall i | 0 <= i < |filtered|
      ensures AmountIf("expense")(filtered[i]) == if IsKind("expense")(filtered[i]) then Included(Every, AmountOf)(filtered[i]) else 0
    {
      var t := filtered[i];
      assert Every(t) && AmountOf(t) == t.amount;
    }
    SumFilter(filtered, IsKind("expense"), Included(Every, AmountOf), AmountIf("expense"));
  }

  /**
   * `doughnutChartData`: one slice per category of the period's expenses, each
   * category once, in the order it first appears; each slice is its category's total,
   * and the slices add up to the period's total expense.
   */
  method DoughnutChartData(ts: seq<Tx>, start: Option<int>, end: Option<int>) returns (r: Doughnut)
    ensures |r.labels| == |r.data| && Distinct(r.labels)
    ensures forall c :: c in r.labels <==>
              exists t :: t in FilteredTransactions(ts, start, end) && t.kind == "expense" && CategoryOf(t) == c
    ensures forall i :: 0 <= i < |r.labels| ==> r.data[i] == Sum(FilteredTransactions(ts, start, end), ExpenseIn(r.labels[i]))
    ensures Sum(r.data, Id) == CalculateTotals(FilteredTransactions(ts, start, end)).expense
  {
    var filtered := FilteredTransactions(ts, start, end);
    var expenses := Filter(filtered, IsKind("expense"));
    var order, categories := GroupSums(expenses, Every, CategoryOf, AmountOf);
    r := Doughnut(order, MapSeq(order, Lookup0(categories)));
    DoughnutLabels(filtered, categories);
    forall i | 0 <= i < |r.labels| ensures r.data[i] == Sum(filtered, ExpenseIn(r.labels[i])) {
      DoughnutSlice(filtered, r.labels[i]);
    }
    SumMapSeq(order, Lookup0(categories));
    DoughnutTotal(filtered);
  }
}
