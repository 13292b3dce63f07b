/**
 * The dashboard service (backend/internal/service/dashboard_service.go): the summary
 * card figures and the spending-by-category breakdown, read from the two stores.
 */
module DashboardService {
  import opened Wrappers
  import opened Domain
  import opened Folds
  import opened Sorting
  import opened Grouping
  import opened TransactionRepository
  import opened WalletRepository

  datatype DashboardSummary = DashboardSummary(
    totalBalance: int,
    totalIncome: int,
    totalExpense: int,
    walletCount: int,
    recent: seq<Transaction>,
    wallets: seq<Wallet>)

  datatype SpendingByCategory = SpendingByCategory(category: string, amount: int)

  /** Only the savings wallets count towards the headline balance; the type name is matched exactly. */
  predicate IsSavings(w: Wallet) {
    w.walletType == "tabungan" || w.walletType == "Tabungan"
  }

  /** The balance of `w` if it is a savings wallet, else 0: the term of the headline sum. */
  function SavingsBalance(w: Wallet): int {
    if IsSavings(w) then w.balance else 0
  }

  /** The balance of `w` if it is not a savings wallet, else 0. */
  function OtherBalance(w: Wallet): int {
    if IsSavings(w) then 0 else w.balance
  }

  /** The headline balance and the balance of the other wallets add up to the user's total balance. */
  lemma SavingsPartition(ws: seq<Wallet>)
    ensures Sum(ws, SavingsBalance) + Sum(ws, OtherBalance) == Sum(ws, WalletBalance)
  {
    SumAdd(ws, SavingsBalance, OtherBalance, WalletBalance);
  }

  /** When every wallet is a savings wallet, the headline balance is the whole balance. */
  lemma AllSavings(ws: seq<Wallet>)
    requires forall i :: 0 <= i < |ws| ==> IsSavings(ws[i])
    ensures Sum(ws, SavingsBalance) == Sum(ws, WalletBalance)
  {
    SavingsPartition(ws);
    SumZero(ws, OtherBalance);
  }

  predicate IsExpense(t: Transaction) {
    t.kind == Expense
  }

  /** The bucket of an expense: its category, or "Uncategorized" when that is empty. */
  function Bucket(t: Transaction): (c: string)
    ensures c != ""
    ensures t.category != "" ==> c == t.category
  {
    if t.category == "" then "Uncategorized" else t.category
  }

  function SpentAmount(e: SpendingByCategory): int {
    e.amount
  }

  /** The expenses of the user's rows filed under bucket `c`, summed. */
  ghost function SpentIn(rows: seq<Transaction>, u: int, c: string): int {
    Sum(Filter(rows, OfUser(u)), InGroup(IsExpense, Bucket, Amount, c))
  }

  /** A permutation of the user's rows has the same buckets, bucket sums and expense total. */
  lemma SameRows(ts: seq<Transaction>, mine: seq<Transaction>, rows: seq<Transaction>, u: int)
    requires mine == Filter(rows, OfUser(u)) && multiset(ts) == multiset(mine)
    ensures KeysOf(ts, IsExpense, Bucket) == (set t | t in mine && t.kind == Expense :: Bucket(t))
    ensures forall c :: Sum(ts, InGroup(IsExpense, Bucket, Amount, c)) == SpentIn(rows, u, c)
    ensures Sum(ts, Included(IsExpense, Amount)) == Sum(mine, AmountOfType(Expense))
  {
    SameKeys(ts, mine);
    forall c ensures Sum(ts, InGroup(IsExpense, Bucket, Amount, c)) == SpentIn(rows, u, c) {
      SumPerm(ts, mine, InGroup(IsExpense, Bucket, Amount, c));
    }
    SameExpenseTotal(ts, mine);
  }

  lemma SameKeys(ts: seq<Transaction>, mine: seq<Transaction>)
    requires multiset(ts) == multiset(mine)
    ensures KeysOf(ts, IsExpense, Bucket) == (set t | t in mine && t.kind == Expense :: Bucket(t))
  {
    assert forall t :: t in ts <==> t in multiset(mine);
  }

  lemma SameExpenseTotal(ts: seq<Transaction>, mine: seq<Transaction>)
    requires multiset(ts) == multiset(mine)
    ensures Sum(ts, Included(IsExpense, Amount)) == Sum(mine, AmountOfType(Expense))
  {
    SumPerm(ts, mine, Included(IsExpense, Amount));
    forall i | 0 <= i < |mine| ensures Included(IsExpense, Amount)(mine[i]) == AmountOfType(Expense)(mine[i]) {
      var t := mine[i];
      assert Included(IsExpense, Amount)(t) == if IsExpense(t) then Amount(t) else 0;
    }
    SumExt(mine, Included(IsExpense, Amount), AmountOfType(Expense));
  }

  /** One row per listed bucket: the rows' buckets are exactly the dictionary's keys, each once. */
  lemma RowsCover(order: seq<string>, totals: map<string, int>, result: seq<SpendingByCategory>)
    requires Distinct(order) && forall c :: c in order <==> c in totals
    requires |result| == |order|
    requires forall i :: 0 <= i < |result| ==> result[i] == SpendingByCategory(order[i], totals[order[i]])
    ensures forall i, j :: 0 <= i < j < |result| ==> result[i].category != result[j].category
    ensures (set e | e in result :: e.category) == totals.Keys
    ensures forall e :: e in result ==> e.category in totals && e.amount == totals[e.category]
  {
    forall c | c in totals ensures c in (set e | e in result :: e.category) {
      var i :| 0 <= i < |order| && order[i] == c;
      assert result[i] in result;
    }
  }

  class Dashboard {
    const wallets: WalletStore
    const txs: TransactionStore

    constructor (wallets: WalletStore, txs: TransactionStore)
      ensures this.wallets == wallets && this.txs == txs
    {
      this.wallets := wallets;
      this.txs := txs;
    }

    /** The headline sum over a listing of wallets. */
    method SavingsTotal(ws: seq<Wallet>) returns (total: int)
      ensures total == Sum(ws, SavingsBalance)
    {
      total := 0;
      var i := 0;
      while i < |ws|
        invariant 0 <= i <= |ws|
        invariant total == Sum(ws[..i], SavingsBalance)
      {
        SumStep(ws, i, SavingsBalance);
        if IsSavings(ws[i]) {
          total := total + ws[i].balance;
        }
        i := i + 1;
      }
      assert ws[..i] == ws;
    }

    /**
     * `GetSummary`: the savings balance over the user's wallets, the all-time income and
     * expense totals, the wallet count, the 10 newest transactions and the wallet listing.
     */
    method GetSummary(u: int) returns (s: DashboardSummary)
      requires wallets.Valid()
      ensures s.totalBalance == Sum(UserWallets(wallets.rows, u, wallets.nextId), SavingsBalance)
      ensures s.totalIncome == Sum(Filter(txs.rows, OfUser(u)), AmountOfType(Income))
      ensures s.totalExpense == Sum(Filter(txs.rows, OfUser(u)), AmountOfType(Expense))
      ensures s.walletCount == |UserWallets(wallets.rows, u, wallets.nextId)|
      ensures multiset(s.wallets) == multiset(UserWallets(wallets.rows, u, wallets.nextId))
      ensures SortedBy(s.wallets, CreatedNewerFirst)
      ensures |s.recent| == (if 10 < |Filter(txs.rows, OfUser(u))| then 10 else |Filter(txs.rows, OfUser(u))|)
      ensures SortedBy(s.recent, NewerFirst) && multiset(s.recent) <= multiset(Filter(txs.rows, OfUser(u)))
      ensures forall x, y :: x in s.recent && y in multiset(Filter(txs.rows, OfUser(u))) - multiset(s.recent)
                ==> NewerFirst(x, y)
    {
      var ws := wallets.FindByUserID(u);
      var total := SavingsTotal(ws);
      SumPerm(ws, UserWallets(wallets.rows, u, wallets.nextId), SavingsBalance);
      var stats := Stats(txs.rows, u);
      var recent := txs.GetRecentByUserID(u, 10);
      assert |ws| == |multiset(ws)|;
      s := DashboardSummary(total, stats.totalIncome, stats.totalExpense, |ws|, recent.value, ws);
    }

    /** The breakdown rows, one per listed bucket, in the listed order. */
    method Rows(order: seq<string>, totals: map<string, int>) returns (result: seq<SpendingByCategory>)
      requires forall c :: c in order ==> c in totals
      ensures |result| == |order|
      ensures forall i :: 0 <= i < |result| ==> result[i] == SpendingByCategory(order[i], totals[order[i]])
      ensures Sum(result, SpentAmount) == Sum(order, Lookup0(totals))
    {
      result := [];
      var i := 0;
      while i < |order|
        invariant 0 <= i <= |order|
        invariant |result| == i
        invariant forall j :: 0 <= j < i ==> result[j] == SpendingByCategory(order[j], totals[order[j]])
        invariant Sum(result, SpentAmount) == Sum(order[..i], Lookup0(totals))
      {
        SumStep(order, i, Lookup0(totals));
        SumAppend(result, [SpendingByCategory(order[i], totals[order[i]])], SpentAmount);
        assert [SpendingByCategory(order[i], totals[order[i]])][..0] == [];
        result := result + [SpendingByCategory(order[i], totals[order[i]])];
        i := i + 1;
      }
      assert order[..i] == order;
    }

    /**
     * `GetSpendingByCategory`: the user's expenses grouped by bucket. Every bucket of an
     * expense appears exactly once and nothing else appears; each row holds its bucket's
     * total; and the rows add up to the user's total expense.
     */
    method GetSpendingByCategory(u: int) returns (result: seq<SpendingByCategory>)
      ensures forall i, j :: 0 <= i < j < |result| ==> result[i].category != result[j].category
      ensures (set e | e in result :: e.category)
              == (set t | t in Filter(txs.rows, OfUser(u)) && t.kind == Expense :: Bucket(t))
      ensures forall e :: e in result ==> e.amount == SpentIn(txs.rows, u, e.category)
      ensures Sum(result, SpentAmount) == Stats(txs.rows, u).totalExpense
    {
      var ts := txs.FindByUserID(u);
      var order, totals := GroupSums(ts, IsExpense, Bucket, Amount);
      result := Rows(order, totals);
      SameRows(ts, Filter(txs.rows, OfUser(u)), txs.rows, u);
      RowsCover(order, totals, result);
    }
  }
}
