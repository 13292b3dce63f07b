/**
 * The report service (backend/internal/service/report_service.go): the transactions
 * of a date range with their income and expense totals, and the export listing.
 */
module ReportService {
  import opened Domain
  import opened Folds
  import opened Sorting
  import opened TransactionRepository

  datatype ReportSummary = ReportSummary(totalIncome: int, totalExpense: int, netIncome: int, transactionCount: int)

  datatype ReportData = ReportData(transactions: seq<Transaction>, summary: ReportSummary)

  /** The user's rows dated within the inclusive range. */
  function InRange(rows: seq<Transaction>, u: int, start: int, end: int): seq<Transaction> {
    Filter(rows, OfUserBetween(u, start, end))
  }

  /**
   * Within a range the turnover splits into income, expense and transfers; the report
   * totals are the first two, so transfers count towards neither.
   */
  lemma ReportSplit(ts: seq<Transaction>)
    ensures Sum(ts, AmountOfType(Income)) + Sum(ts, AmountOfType(Expense)) + Sum(ts, AmountOfType(Transfer))
            == Sum(ts, Amount)
  {
    var ie := (t: Transaction) => AmountOfType(Income)(t) + AmountOfType(Expense)(t);
    SumAdd(ts, AmountOfType(Income), AmountOfType(Expense), ie);
    SumAdd(ts, ie, AmountOfType(Transfer), Amount);
  }

  /**
   * A range that spans every date of the user's rows reports the all-time totals that
   * the stats query gives.
   */
  lemma WholeRangeIsStats(rows: seq<Transaction>, u: int, start: int, end: int)
    requires forall i :: 0 <= i < |rows| && rows[i].userId == u ==> start <= rows[i].date <= end
    ensures InRange(rows, u, start, end) == Filter(rows, OfUser(u))
    ensures Sum(InRange(rows, u, start, end), AmountOfType(Income)) == Stats(rows, u).totalIncome
    ensures Sum(InRange(rows, u, start, end), AmountOfType(Expense)) == Stats(rows, u).totalExpense
  {
    FilterAgree(rows, OfUserBetween(u, start, end), OfUser(u));
  }

  class Reports {
    const txs: TransactionStore

    constructor (txs: TransactionStore)
      ensures this.txs == txs
    {
      this.txs := txs;
    }

    /** The income and expense totals of a listing, by one pass over it. */
    method Totals(ts: seq<Transaction>) returns (income: int, expense: int)
      ensures income == Sum(ts, AmountOfType(Income))
      ensures expense == Sum(ts, AmountOfType(Expense))
    {
      income, expense := 0, 0;
      var i := 0;
      while i < |ts|
        invariant 0 <= i <= |ts|
        invariant income == Sum(ts[..i], AmountOfType(Income))
        invariant expense == Sum(ts[..i], AmountOfType(Expense))
      {
        SumStep(ts, i, AmountOfType(Income));
        SumStep(ts, i, AmountOfType(Expense));
        match ts[i].kind {
          case Income => income := income + ts[i].amount;
          case Expense => expense := expense + ts[i].amount;
          case Transfer =>
        }
        i := i + 1;
      }
      assert ts[..i] == ts;
    }

    /**
     * `GetTransactionReport`: the range's listing, returned as it is, with the sum of its
     * incomes, the sum of its expenses, their difference and the number of its rows.
     */
    method GetTransactionReport(u: int, start: int, end: int) returns (r: ReportData)
      ensures Listing(r.transactions, txs.rows, OfUserBetween(u, start, end))
      ensures r.summary.totalIncome == Sum(InRange(txs.rows, u, start, end), AmountOfType(Income))
      ensures r.summary.totalExpense == Sum(InRange(txs.rows, u, start, end), AmountOfType(Expense))
      ensures r.summary.netIncome == r.summary.totalIncome - r.summary.totalExpense
      ensures r.summary.transactionCount == |InRange(txs.rows, u, start, end)|
    {
      var ts := txs.FindByDateRange(u, start, end);
      var income, expense := Totals(ts);
      SumPerm(ts, InRange(txs.rows, u, start, end), AmountOfType(Income));
      SumPerm(ts, InRange(txs.rows, u, start, end), AmountOfType(Expense));
      assert |ts| == |multiset(ts)|;
      r := ReportData(ts, ReportSummary(income, expense, income - expense, |ts|));
    }

    /** `ExportTransactions`: the user's whole listing, newest first. */
    method ExportTransactions(u: int) returns (r: seq<Transaction>)
      ensures Listing(r, txs.rows, OfUser(u))
      ensures forall t :: t in r <==> t in txs.rows && t.userId == u
    {
      r := txs.FindByUserID(u);
    }
  }
}
