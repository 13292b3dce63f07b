/**
 * The transactions page (frontend/src/features/transactions/TransactionsPage.jsx): the
 * list under the type filter, newest first, and the wallet each row shows.
 */
module TransactionsPage {
  import opened Wrappers
  import opened Folds
  import opened Sorting
  import opened FrontModel

  /** `filterType === 'all' || t.type === filterType`. */
  function TypeFilter(filterType: string): Tx -> bool {
    (t: Tx) => filterType == "all" || t.kind == filterType
  }

  /**
   * `filteredTransactions`: the transactions the filter keeps, newest first; every
   * transaction for 'all', exactly those of the chosen type otherwise, each as many
   * times as in the input.
   */
  function FilteredTransactions(ts: seq<Tx>, filterType: string): (r: seq<Tx>)
    ensures SortedBy(r, NewestFirst)
    ensures multiset(r) == multiset(Filter(ts, TypeFilter(filterType)))
    ensures filterType == "all" ==> multiset(r) == multiset(ts)
    ensures forall t :: t in r <==> t in ts && (filterType == "all" || t.kind == filterType)
  {
    NewestFirstOrder();
    var kept := Filter(ts, TypeFilter(filterType));
    SortCorrect(kept, NewestFirst);
    var r := Sort(kept, NewestFirst);
    forall t ensures t in r <==> t in ts && (filterType == "all" || t.kind == filterType) {
      assert t in r <==> t in multiset(r);
      FilterIn(ts, TypeFilter(filterType), t);
    }
    assert filterType == "all" ==> kept == ts by {
      if filterType == "all" {
        FilterAll(ts, TypeFilter(filterType));
      }
    }
    r
  }

  /** The filters of the page split the list: every transaction shows under exactly one type. */
  lemma TypesPartition(ts: seq<Tx>, t: Tx)
    requires t in ts
    ensures t in FilteredTransactions(ts, t.kind)
    ensures forall k :: k != "all" && k != t.kind ==> t !in FilteredTransactions(ts, k)
  {
  }

  /** A row of the list: the transaction and the wallet shown beside it, if any. */
  datatype Row = Row(transaction: Tx, wallet: Option<Wal>)

  /**
   * The rows rendered: one per listed transaction, in order, each with the first wallet
   * whose id is the transaction's `walletId` or `fromWalletId`.
   */
  function Rows(ws: seq<Wal>, ts: seq<Tx>, filterType: string): (rows: seq<Row>)
    ensures |rows| == |FilteredTransactions(ts, filterType)|
    ensures forall i :: 0 <= i < |rows| ==> rows[i].transaction == FilteredTransactions(ts, filterType)[i]
    ensures forall i :: 0 <= i < |rows| ==> rows[i].wallet == RowWallet(ws, rows[i].transaction)
  {
    var listed := FilteredTransactions(ts, filterType);
    seq(|listed|, i requires 0 <= i < |listed| => Row(listed[i], RowWallet(ws, listed[i])))
  }

  /** A row shows no wallet exactly when no wallet's id is the row's `walletId` or `fromWalletId`. */
  lemma RowWithoutWallet(ws: seq<Wal>, t: Tx)
    ensures RowWallet(ws, t).None? <==>
              forall i :: 0 <= i < |ws| ==> Some(ws[i].id) != t.walletId && Some(ws[i].id) != t.fromWalletId
  {
  }

  /** For a transfer, the row shows the source wallet, never only the destination. */
  lemma TransferRowShowsSource(ws: seq<Wal>, t: Tx)
    requires t.walletId.None? && t.fromWalletId.Some?
    ensures RowWallet(ws, t).Some? ==> Some(RowWallet(ws, t).value.id) == t.fromWalletId
  {
  }
}
