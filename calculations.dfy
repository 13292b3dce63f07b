/**
 * The frontend's aggregation helpers (frontend/src/utils/calculations.js): wallet
 * balance totals, the date-range filter, income and expense totals, and the
 * dictionaries built by grouping transactions per wallet, per day and per month.
 */
module Calculations {
  import opened Wrappers
  import opened Text
  import opened Folds
  import opened Sorting
  import opened FrontModel

  /** `wallet.balance || 0`: a missing balance counts as 0. */
  function BalanceOr0(w: Wal): int {
    if Truthy(w.balance) then w.balance.value else 0
  }

  /** `calculateTotalBalance`: the balances added up. */
  function CalculateTotalBalance(ws: seq<Wal>): int {
    Sum(ws, BalanceOr0)
  }

  function OfKind(k: string): Wal -> bool {
    (w: Wal) => w.kind == k
  }

  function NotOfKind(k: string): Wal -> bool {
    (w: Wal) => w.kind != k
  }

  /** `calculateBalanceByType`: the balances of the wallets of type `k` added up. */
  function CalculateBalanceByType(ws: seq<Wal>, k: string): int {
    Sum(Filter(ws, OfKind(k)), BalanceOr0)
  }

  /** The total over two lists of wallets is the sum of their totals. */
  lemma TotalBalanceAppend(a: seq<Wal>, b: seq<Wal>)
    ensures CalculateTotalBalance(a + b) == CalculateTotalBalance(a) + CalculateTotalBalance(b)
  {
    SumAppend(a, b, BalanceOr0);
  }

  /** A wallet without a balance does not change the total. */
  lemma MissingBalanceIgnored(ws: seq<Wal>, w: Wal)
    requires w.balance.None?
    ensures CalculateTotalBalance(ws + [w]) == CalculateTotalBalance(ws)
  {
    TotalBalanceAppend(ws, [w]);
    assert [w][..0] == [];
  }

  /**
   * The wallets of type `k` and the wallets of every other type split the total: a
   * wallet is counted in exactly one of the two.
   */
  lemma BalanceByTypeSplit(ws: seq<Wal>, k: string)
    ensures CalculateBalanceByType(ws, k) + Sum(Filter(ws, NotOfKind(k)), BalanceOr0) == CalculateTotalBalance(ws)
  {
    var inK := (w: Wal) => if w.kind == k then BalanceOr0(w) else 0;
    var outK := (w: Wal) => if w.kind != k then BalanceOr0(w) else 0;
    SumFilter(ws, OfKind(k), BalanceOr0, inK);
    SumFilter(ws, NotOfKind(k), BalanceOr0, outK);
    SumAdd(ws, inK, outK, BalanceOr0);
  }

  /** With only the two wallet types the form offers, their totals add up to the whole. */
  lemma TwoTypes(ws: seq<Wal>)
    requires forall i :: 0 <= i < |ws| ==> ws[i].kind == "tabungan" || ws[i].kind == "transaksi"
    ensures CalculateBalanceByType(ws, "tabungan") + CalculateBalanceByType(ws, "transaksi")
            == CalculateTotalBalance(ws)
  {
    BalanceByTypeSplit(ws, "tabungan");
    FilterAgree(ws, NotOfKind("tabungan"), OfKind("transaksi"));
  }

  /** `end.setHours(23, 59, 59, 999)`: the last millisecond of the day of `ms`. */
  function EndOfDay(ms: int): int {
    Day(ms) * DAY + DAY - 1
  }

  /** A date is at or before the end of the day of `e` exactly when its day is not after that day. */
  lemma EndOfDayBound(x: int, e: int)
    ensures x <= EndOfDay(e) <==> Day(x) <= Day(e)
  {
    var d := Day(e);
    assert x == Day(x) * DAY + x % DAY;
    if Day(x) <= d {
      assert x <= Day(x) * DAY + DAY - 1;
      assert Day(x) * DAY <= d * DAY;
    } else {
      assert Day(x) >= d + 1;
      assert Day(x) * DAY >= (d + 1) * DAY;
    }
  }

  function InDateRange(start: int, end: int): Tx -> bool {
    (t: Tx) => start <= t.date <= EndOfDay(end)
  }

  /**
   * `filterTransactionsByDateRange`: the transactions dated from `start` up to the end
   * of the day of `end`, in their input order.
   */
  function FilterByDateRange(ts: seq<Tx>, start: int, end: int): (r: seq<Tx>)
    ensures forall t :: t in r <==> t in ts && start <= t.date && Day(t.date) <= Day(end)
  {
    var r := Filter(ts, InDateRange(start, end));
    forall t ensures t in r <==> t in ts && start <= t.date && Day(t.date) <= Day(end) {
      FilterIn(ts, InDateRange(start, end), t);
      EndOfDayBound(t.date, end);
    }
    r
  }

  datatype Totals = Totals(income: int, expense: int)

  /**
   * `calculateTotals`: one pass that adds each income to `income` and each expense to
   * `expense`; any other type is skipped.
   */
  function CalculateTotals(ts: seq<Tx>): (r: Totals)
    ensures r.income == Sum(ts, AmountIf("income"))
    ensures r.expense == Sum(ts, AmountIf("expense"))
  {
    if ts == [] then Totals(0, 0)
    else
      var acc := CalculateTotals(ts[..|ts| - 1]);
      var t := ts[|ts| - 1];
      if t.kind == "income" then acc.(income := acc.income + t.amount)
      else if t.kind == "expense" then acc.(expense := acc.expense + t.amount)
      else acc
  }

  /** The totals of two lists together are the sums of their totals. */
  lemma TotalsAppend(a: seq<Tx>, b: seq<Tx>)
    ensures CalculateTotals(a + b).income == CalculateTotals(a).income + CalculateTotals(b).income
    ensures CalculateTotals(a + b).expense == CalculateTotals(a).expense + CalculateTotals(b).expense
  {
    SumAppend(a, b, AmountIf("income"));
    SumAppend(a, b, AmountIf("expense"));
  }

  /** A transfer (or any type other than income and expense) changes neither total. */
  lemma TransferIgnored(ts: seq<Tx>, t: Tx)
    requires t.kind != "income" && t.kind != "expense"
    ensures CalculateTotals(ts + [t]) == CalculateTotals(ts)
  {
    assert (ts + [t])[..|ts|] == ts;
  }

  /** The key `groupTransactionsByWallet` files a transaction under: `walletId || fromWalletId`. */
  function GroupKey(t: Tx): Option<int> {
    Or(t.walletId, t.fromWalletId)
  }

  /** Filed under wallet `k`: a truthy key equal to `k`. */
  function InWalletGroup(k: int): Tx -> bool {
    (t: Tx) => Truthy(GroupKey(t)) && GroupKey(t).value == k
  }

  /** `wallet?.name || "Unknown"` for the first wallet with id `k`. */
  function WalletName(ws: seq<Wal>, k: int): (name: string)
    ensures name != ""
    ensures (forall i :: 0 <= i < |ws| ==> ws[i].id != k) ==> name == "Unknown"
  {
    var w := Find(ws, (w: Wal) => w.id == k);
    if w.Some? then OrElse(w.value.name, "Unknown") else "Unknown"
  }

  datatype WalletGroup = WalletGroup(walletName: string, transactions: seq<Tx>, total: int)

  /** The group of wallet `k`: its name, its transactions in input order, and the sum of its expenses. */
  function GroupOf(ts: seq<Tx>, ws: seq<Wal>, k: int): WalletGroup {
    var txs := Filter(ts, InWalletGroup(k));
    WalletGroup(WalletName(ws, k), txs, Sum(txs, AmountIf("expense")))
  }

  /** What the per-wallet loop has built after reading `s`: one group per key met so far. */
  ghost predicate ByWallet(s: seq<Tx>, ws: seq<Wal>, g: map<int, WalletGroup>) {
    && (forall k :: k in g <==> Filter(s, InWalletGroup(k)) != [])
    && (forall k :: k in g ==> g[k] == GroupOf(s, ws, k))
  }

  lemma WalletEmpty(s: seq<Tx>, ws: seq<Wal>)
    ensures ByWallet(s[..0], ws, map[])
  {
    assert s[..0] == [];
  }

  /** A transaction without a wallet key leaves every group as it is. */
  lemma WalletSkip(s: seq<Tx>, ws: seq<Wal>, g: map<int, WalletGroup>, x: Tx)
    requires ByWallet(s, ws, g) && !Truthy(GroupKey(x))
    ensures ByWallet(s + [x], ws, g)
  {
    forall k ensures Filter(s + [x], InWalletGroup(k)) == Filter(s, InWalletGroup(k)) {
      WalletFilterStep(s, x, k);
    }
  }

  /** The group of `k` as the loop finds it: the one built so far, or a fresh empty one. */
  function GroupOrNew(g: map<int, WalletGroup>, ws: seq<Wal>, k: int): WalletGroup {
    if k in g then g[k] else WalletGroup(WalletName(ws, k), [], 0)
  }

  /** `group.transactions.push(t)` and, for an expense, `group.total += t.amount`. */
  function AddToGroup(grp: WalletGroup, x: Tx): WalletGroup {
    grp.(transactions := grp.transactions + [x], total := grp.total + AmountIf("expense")(x))
  }

  /** Filing `x` changes the group of its own key only. */
  lemma WalletFilterStep(s: seq<Tx>, x: Tx, k: int)
    ensures Filter(s + [x], InWalletGroup(k)) == Filter(s, InWalletGroup(k)) + (if InWalletGroup(k)(x) then [x] else [])
  {
    assert (s + [x])[..|s|] == s;
  }

  /** Appending a transaction to its own group, opened empty if need be, gives the group of the longer input. */
  lemma WalletOwnGroup(s: seq<Tx>, ws: seq<Wal>, g: map<int, WalletGroup>, x: Tx)
    requires ByWallet(s, ws, g) && Truthy(GroupKey(x))
    ensures var k := GroupKey(x).value;
            && Filter(s + [x], InWalletGroup(k)) != []
            && AddToGroup(GroupOrNew(g, ws, k), x) == GroupOf(s + [x], ws, k)
  {
    var k := GroupKey(x).value;
    WalletFilterStep(s, x, k);
    var txs := Filter(s, InWalletGroup(k));
    assert GroupOrNew(g, ws, k) == WalletGroup(WalletName(ws, k), txs, Sum(txs, AmountIf("expense")));
    SumAppend(txs, [x], AmountIf("expense"));
    assert [x][..0] == [];
  }

  /** A transaction with key `k` is appended to the group of `k`, opened empty if need be. */
  lemma WalletFile(s: seq<Tx>, ws: seq<Wal>, g: map<int, WalletGroup>, x: Tx)
    requires ByWallet(s, ws, g) && Truthy(GroupKey(x))
    ensures var k := GroupKey(x).value;
            ByWallet(s + [x], ws, g[k := AddToGroup(GroupOrNew(g, ws, k), x)])
  {
    var k := GroupKey(x).value;
    var g' := g[k := AddToGroup(GroupOrNew(g, ws, k), x)];
    WalletOwnGroup(s, ws, g, x);
    forall k' | k' != k ensures Filter(s + [x], InWalletGroup(k')) == Filter(s, InWalletGroup(k')) {
      WalletFilterStep(s, x, k');
    }
    forall k' ensures k' in g' <==> Filter(s + [x], InWalletGroup(k')) != [] {
      if k' != k {
        assert k' in g' <==> k' in g;
      }
    }
    forall k' | k' in g' ensures g'[k'] == GroupOf(s + [x], ws, k') {
      if k' != k {
        assert g'[k'] == g[k'];
      }
    }
  }

  /** One turn of the per-wallet loop keeps what it has built in step with the input read. */
  lemma WalletTurn(ts: seq<Tx>, ws: seq<Wal>, i: int, g0: map<int, WalletGroup>, g: map<int, WalletGroup>)
    requires 0 <= i < |ts| && ByWallet(ts[..i], ws, g0)
    requires Truthy(GroupKey(ts[i])) ==>
               g == g0[GroupKey(ts[i]).value := AddToGroup(GroupOrNew(g0, ws, GroupKey(ts[i]).value), ts[i])]
    requires !Truthy(GroupKey(ts[i])) ==> g == g0
    ensures ByWallet(ts[..i + 1], ws, g)
  {
    assert ts[..i + 1] == ts[..i] + [ts[i]];
    if Truthy(GroupKey(ts[i])) {
      WalletFile(ts[..i], ws, g0, ts[i]);
    } else {
      WalletSkip(ts[..i], ws, g0, ts[i]);
    }
  }

  /**
   * `groupTransactionsByWallet`: a dictionary with one group per wallet key that some
   * transaction carries; each group holds the wallet's name, its transactions in input
   * order, and the sum of its expenses.
   */
  method GroupByWallet(ts: seq<Tx>, ws: seq<Wal>) returns (g: map<int, WalletGroup>)
    ensures forall k :: k in g <==> Filter(ts, InWalletGroup(k)) != []
    ensures forall k :: k in g ==> g[k] == GroupOf(ts, ws, k)
  {
    g := map[];
    WalletEmpty(ts, ws);
    var i := 0;
    while i < |ts|
      invariant 0 <= i <= |ts|
      invariant ByWallet(ts[..i], ws, g)
    {
      var x := ts[i];
      ghost var g0 := g;
      var key := GroupKey(x);
      if Truthy(key) {
        var k := key.value;
        // a wallet met for the first time opens an empty group under its name
        var grp := if k in g then g[k] else WalletGroup(WalletName(ws, k), [], 0);
        grp := grp.(transactions := grp.transactions + [x]);
        if x.kind == "expense" {
          grp := grp.(total := grp.total + x.amount);
        }
        assert grp == AddToGroup(GroupOrNew(g0, ws, k), x);
        g := g[k := grp];
      }
      WalletTurn(ts, ws, i, g0, g);
      i := i + 1;
    }
    assert ts[..i] == ts;
  }

  /**
   * A transaction is in the group of `k` exactly when it is in the input and filed
   * under `k`: every keyed transaction is in its own group and in no other.
   */
  lemma OneWalletGroup(ts: seq<Tx>, ws: seq<Wal>, t: Tx, k: int)
    ensures t in GroupOf(ts, ws, k).transactions <==> t in ts && Truthy(GroupKey(t)) && GroupKey(t).value == k
  {
    FilterIn(ts, InWalletGroup(k), t);
  }

  function OnDay(d: int): Tx -> bool {
    (t: Tx) => Day(t.date) == d
  }

  /** What the per-day loop has built after reading `s`. */
  ghost predicate ByDay(s: seq<Tx>, g: map<int, seq<Tx>>) {
    && (forall d :: d in g <==> Filter(s, OnDay(d)) != [])
    && (forall d :: d in g ==> g[d] == Filter(s, OnDay(d)))
  }

  lemma DayEmpty(s: seq<Tx>)
    ensures ByDay(s[..0], map[])
  {
    assert s[..0] == [];
  }

  lemma DayFile(s: seq<Tx>, g: map<int, seq<Tx>>, x: Tx)
    requires ByDay(s, g)
    ensures var d := Day(x.date);
            ByDay(s + [x], g[d := (if d in g then g[d] else []) + [x]])
  {
    assert (s + [x])[..|s|] == s;
  }

  /**
   * `groupTransactionsByDate`: a dictionary with one entry per local day that some
   * transaction falls on, holding that day's transactions in input order.
   */
  method GroupByDate(ts: seq<Tx>) returns (g: map<int, seq<Tx>>)
    ensures forall d :: d in g <==> Filter(ts, OnDay(d)) != []
    ensures forall d :: d in g ==> g[d] == Filter(ts, OnDay(d))
  {
    g := map[];
    DayEmpty(ts);
    var i := 0;
    while i < |ts|
      invariant 0 <= i <= |ts|
      invariant ByDay(ts[..i], g)
    {
      var x := ts[i];
      assert ts[..i + 1] == ts[..i] + [x];
      DayFile(ts[..i], g, x);
      var d := Day(x.date);
      if d !in g {
        g := g[d := []];
      }
      g := g[d := g[d] + [x]];
      i := i + 1;
    }
    assert ts[..i] == ts;
  }

  /** Every transaction is in the bucket of its own day and in no other. */
  lemma OneDay(ts: seq<Tx>, t: Tx, d: int)
    requires t in ts
    ensures t in Filter(ts, OnDay(d)) <==> d == Day(t.date)
  {
    FilterIn(ts, OnDay(d), t);
  }

  /** The month key "YYYY-MM": the year, a dash, and the month padded to two digits. */
  function MonthKey(c: CivilDate): string {
    IntToString(c.year) + "-" + PadStart2(IntToString(c.month))
  }

  /** The month key of a transaction, through the local calendar. */
  function TxMonth(calendar: int -> CivilDate): Tx -> string {
    (t: Tx) => MonthKey(calendar(Day(t.date)))
  }

  /** The amount of `t` when its month is `c` and its type is `k`, else 0. */
  function MonthAmount(mk: Tx -> string, k: string, c: string): Tx -> int {
    (t: Tx) => if mk(t) == c && t.kind == k then t.amount else 0
  }

  datatype MonthTotals = MonthTotals(income: int, expense: int)

  function IncomeOf(m: map<string, MonthTotals>): string -> int {
    (c: string) => if c in m then m[c].income else 0
  }

  function ExpenseOf(m: map<string, MonthTotals>): string -> int {
    (c: string) => if c in m then m[c].expense else 0
  }

  ghost function MonthsOf(s: seq<Tx>, mk: Tx -> string): set<string> {
    set t | t in s :: mk(t)
  }

  /** Each month met has its income and expense sums; a month not met has none. */
  ghost predicate MonthCells(s: seq<Tx>, mk: Tx -> string, m: map<string, MonthTotals>) {
    && m.Keys == MonthsOf(s, mk)
    && (forall c :: c in m ==> m[c] == MonthTotals(Sum(s, MonthAmount(mk, "income", c)),
                                                   Sum(s, MonthAmount(mk, "expense", c))))
    && (forall c :: c !in m ==> Sum(s, MonthAmount(mk, "income", c)) == 0
                                && Sum(s, MonthAmount(mk, "expense", c)) == 0)
  }

  /** The months listed once each, in the dictionary's key order, adding up to the totals. */
  ghost predicate MonthListing(s: seq<Tx>, order: seq<string>, m: map<string, MonthTotals>) {
    && Distinct(order)
    && (forall c :: c in order <==> c in m)
    && Sum(order, IncomeOf(m)) == Sum(s, AmountIf("income"))
    && Sum(order, ExpenseOf(m)) == Sum(s, AmountIf("expense"))
  }

  /** What the per-month loop has built after reading `s`. */
  ghost predicate ByMonth(s: seq<Tx>, mk: Tx -> string, order: seq<string>, m: map<string, MonthTotals>) {
    MonthCells(s, mk, m) && MonthListing(s, order, m)
  }

  lemma MonthEmpty(s: seq<Tx>, mk: Tx -> string)
    ensures ByMonth(s[..0], mk, [], map[])
  {
    assert s[..0] == [];
  }

  /** The month's figures as the loop finds them: those so far, or zeros for a new month. */
  function Cell(m: map<string, MonthTotals>, c: string): MonthTotals {
    if c in m then m[c] else MonthTotals(0, 0)
  }

  /** `monthlyData[k].income += amount` for an income, `.expense += amount` for an expense. */
  function Bumped(cur: MonthTotals, x: Tx): (r: MonthTotals)
    ensures r == MonthTotals(cur.income + AmountIf("income")(x), cur.expense + AmountIf("expense")(x))
  {
    if x.kind == "income" then cur.(income := cur.income + x.amount)
    else if x.kind == "expense" then cur.(expense := cur.expense + x.amount)
    else cur
  }

  /** Reading one more transaction adds its share to every month's sums. */
  lemma MonthSumsStep(s: seq<Tx>, mk: Tx -> string, x: Tx, c: string)
    ensures Sum(s + [x], MonthAmount(mk, "income", c)) == Sum(s, MonthAmount(mk, "income", c)) + MonthAmount(mk, "income", c)(x)
    ensures Sum(s + [x], MonthAmount(mk, "expense", c)) == Sum(s, MonthAmount(mk, "expense", c)) + MonthAmount(mk, "expense", c)(x)
  {
    assert (s + [x])[..|s|] == s;
  }

  /** Reading one more transaction adds its month to the months met. */
  lemma MonthKeysStep(s: seq<Tx>, mk: Tx -> string, x: Tx)
    ensures MonthsOf(s + [x], mk) == MonthsOf(s, mk) + {mk(x)}
  {
    assert forall y :: y in s + [x] <==> y in s || y == x;
  }

  /** The figures of month `c` after one more transaction: bumped for its own month, as they were for the others. */
  lemma MonthCellAt(s: seq<Tx>, mk: Tx -> string, m: map<string, MonthTotals>, x: Tx, c: string)
    requires MonthCells(s, mk, m)
    ensures var m' := m[mk(x) := Bumped(Cell(m, mk(x)), x)];
            && (c in m' ==> m'[c] == MonthTotals(Sum(s + [x], MonthAmount(mk, "income", c)),
                                                 Sum(s + [x], MonthAmount(mk, "expense", c))))
            && (c !in m' ==> Sum(s + [x], MonthAmount(mk, "income", c)) == 0
                             && Sum(s + [x], MonthAmount(mk, "expense", c)) == 0)
  {
    MonthSumsStep(s, mk, x, c);
  }

  /** Filing one more transaction under its month keeps every month's figures in step. */
  lemma MonthCellsStep(s: seq<Tx>, mk: Tx -> string, m: map<string, MonthTotals>, x: Tx)
    requires MonthCells(s, mk, m)
    ensures MonthCells(s + [x], mk, m[mk(x) := Bumped(Cell(m, mk(x)), x)])
  {
    var m' := m[mk(x) := Bumped(Cell(m, mk(x)), x)];
    MonthKeysStep(s, mk, x);
    forall c | c in m'
      ensures m'[c] == MonthTotals(Sum(s + [x], MonthAmount(mk, "income", c)), Sum(s + [x], MonthAmount(mk, "expense", c)))
    {
      MonthCellAt(s, mk, m, x, c);
    }
    forall c | c !in m'
      ensures Sum(s + [x], MonthAmount(mk, "income", c)) == 0 && Sum(s + [x], MonthAmount(mk, "expense", c)) == 0
    {
      MonthCellAt(s, mk, m, x, c);
    }
  }

  /** The income and expense columns after one more transaction move by its amounts in its own month. */
  lemma MonthColumnsStep(s: seq<Tx>, order: seq<string>, m: map<string, MonthTotals>, x: Tx, c: string)
    requires Distinct(order)
    ensures var m' := m[c := Bumped(Cell(m, c), x)];
            && Sum(order, IncomeOf(m')) == Sum(order, IncomeOf(m)) + (if c in order then AmountIf("income")(x) else 0)
            && Sum(order, ExpenseOf(m')) == Sum(order, ExpenseOf(m)) + (if c in order then AmountIf("expense")(x) else 0)
  {
    var m' := m[c := Bumped(Cell(m, c), x)];
    SumPoint(order, IncomeOf(m), IncomeOf(m'), c, AmountIf("income")(x));
    SumPoint(order, ExpenseOf(m), ExpenseOf(m'), c, AmountIf("expense")(x));
  }

  /** Filing a transaction under a month already listed keeps the listing. */
  lemma MonthListingOld(s: seq<Tx>, order: seq<string>, m: map<string, MonthTotals>, x: Tx, c: string)
    requires MonthListing(s, order, m) && c in m
    ensures MonthListing(s + [x], order, m[c := Bumped(Cell(m, c), x)])
  {
    SumSnoc(s, x, AmountIf("income"));
    SumSnoc(s, x, AmountIf("expense"));
    MonthColumnsStep(s, order, m, x, c);
  }

  /** Filing a transaction under a new month, listed last, keeps the listing. */
  lemma MonthListingNew(s: seq<Tx>, order: seq<string>, m: map<string, MonthTotals>, x: Tx, c: string)
    requires MonthListing(s, order, m) && c !in m
    ensures MonthListing(s + [x], order + [c], m[c := Bumped(Cell(m, c), x)])
  {
    var m' := m[c := Bumped(Cell(m, c), x)];
    SumSnoc(s, x, AmountIf("income"));
    SumSnoc(s, x, AmountIf("expense"));
    MonthColumnsStep(s, order, m, x, c);
    SumSnoc(order, c, IncomeOf(m'));
    SumSnoc(order, c, ExpenseOf(m'));
    DistinctSnoc(order, c);
  }

  /** One turn of the per-month loop keeps what it has built in step with the input read. */
  lemma MonthTurn(ts: seq<Tx>, mk: Tx -> string, i: int, order0: seq<string>, m0: map<string, MonthTotals>,
                  order: seq<string>, m: map<string, MonthTotals>)
    requires 0 <= i < |ts| && ByMonth(ts[..i], mk, order0, m0)
    requires m == m0[mk(ts[i]) := Bumped(Cell(m0, mk(ts[i])), ts[i])]
    requires order == if mk(ts[i]) in m0 then order0 else order0 + [mk(ts[i])]
    ensures ByMonth(ts[..i + 1], mk, order, m)
  {
    assert ts[..i + 1] == ts[..i] + [ts[i]];
    MonthCellsStep(ts[..i], mk, m0, ts[i]);
    if mk(ts[i]) in m0 {
      MonthListingOld(ts[..i], order0, m0, ts[i], mk(ts[i]));
    } else {
      MonthListingNew(ts[..i], order0, m0, ts[i], mk(ts[i]));
    }
  }

  /** Sorting the listed months and reading off their figures keeps every month and the totals. */
  lemma SortedMonths(ts: seq<Tx>, mk: Tx -> string, order: seq<string>, m: map<string, MonthTotals>)
    requires ByMonth(ts, mk, order, m)
    ensures var sorted := Sort(order, StrLe);
            && Distinct(sorted) && SortedBy(sorted, StrLe)
            && (forall c :: c in sorted <==> c in MonthsOf(ts, mk))
            && Sum(MapSeq(sorted, IncomeOf(m)), Id) == Sum(ts, AmountIf("income"))
            && Sum(MapSeq(sorted, ExpenseOf(m)), Id) == Sum(ts, AmountIf("expense"))
  {
    var sorted := Sort(order, StrLe);
    StrLeOrder();
    SortCorrect(order, StrLe);
    DistinctPerm(order, sorted);
    assert forall c :: c in sorted <==> c in multiset(order);
    SumMapSeq(sorted, IncomeOf(m));
    SumMapSeq(sorted, ExpenseOf(m));
    SumPerm(sorted, order, IncomeOf(m));
    SumPerm(sorted, order, ExpenseOf(m));
  }

  /** Each listed month's figures are its income and expense sums. */
  lemma MonthFigures(ts: seq<Tx>, mk: Tx -> string, sorted: seq<string>, m: map<string, MonthTotals>)
    requires MonthCells(ts, mk, m)
    ensures forall i :: 0 <= i < |sorted| ==>
              && MapSeq(sorted, IncomeOf(m))[i] == Sum(ts, MonthAmount(mk, "income", sorted[i]))
              && MapSeq(sorted, ExpenseOf(m))[i] == Sum(ts, MonthAmount(mk, "expense", sorted[i]))
  {
  }

  /**
   * The loop of `generateMonthlyTrendData`: each transaction opens its month at zero the
   * first time it is met and adds its amount to the month's income or expense.
   */
  method CollectMonths(ts: seq<Tx>, mk: Tx -> string) returns (order: seq<string>, monthly: map<string, MonthTotals>)
    ensures ByMonth(ts, mk, order, monthly)
  {
    order := [];
    monthly := map[];
    MonthEmpty(ts, mk);
    var i := 0;
    while i < |ts|
      invariant 0 <= i <= |ts|
      invariant ByMonth(ts[..i], mk, order, monthly)
    {
      var x := ts[i];
      var c := mk(x);
      ghost var m0 := monthly;
      ghost var order0 := order;
      // a month met for the first time starts at zero and joins the listing
      if c !in monthly {
        order := order + [c];
      }
      monthly := monthly[c := Bumped(Cell(monthly, c), x)];
      MonthTurn(ts, mk, i, order0, m0, order, monthly);
      i := i + 1;
    }
    assert ts[..i] == ts;
  }

  /** The monthly series: the months in ascending key order, with their income and expense sums. */
  datatype Trend = Trend(months: seq<string>, income: seq<int>, expense: seq<int>)

  /**
   * `generateMonthlyTrendData` without the chart labels: every month some transaction
   * falls in, once each, in ascending key order, with its income and expense sums
   * (transfers count in neither, though a month with only transfers is listed with
   * zeros); the monthly figures add up to the overall totals.
   */
  method MonthlyTrend(ts: seq<Tx>, calendar: int -> CivilDate) returns (r: Trend)
    ensures Distinct(r.months) && SortedBy(r.months, StrLe)
    ensures forall c :: c in r.months <==> c in MonthsOf(ts, TxMonth(calendar))
    ensures |r.income| == |r.months| && |r.expense| == |r.months|
    ensures forall i :: 0 <= i < |r.months| ==>
              && r.income[i] == Sum(ts, MonthAmount(TxMonth(calendar), "income", r.months[i]))
              && r.expense[i] == Sum(ts, MonthAmount(TxMonth(calendar), "expense", r.months[i]))
    ensures Sum(r.income, Id) == CalculateTotals(ts).income
    ensures Sum(r.expense, Id) == CalculateTotals(ts).expense
  {
    var mk := TxMonth(calendar);
    var order, monthly := CollectMonths(ts, mk);
    SortedMonths(ts, mk, order, monthly);
    var sorted := Sort(order, StrLe);
    MonthFigures(ts, mk, sorted, monthly);
    var income := MapSeq(sorted, IncomeOf(monthly));
    var expense := MapSeq(sorted, ExpenseOf(monthly));
    r := Trend(sorted, income, expense);
  }
}
