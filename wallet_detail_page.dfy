/**
 * The wallet detail page (frontend/src/features/wallets/WalletDetailPage.jsx): the
 * wallet named by the route, the transactions that touch it, newest first, and the
 * income and expense booked on it.
 */
module WalletDetailPage {
  import opened Wrappers
  import opened Text
  import opened Folds
  import opened Sorting
  import opened FrontModel
  import opened WalletContext

  /** What the page shows: the not-found notice, or the wallet with its list and totals. */
  datatype Detail = NotFound | View(wallet: Wal, transactions: seq<Tx>, totalIncome: int, totalExpense: int)

  /** The transaction touches wallet `k`: as its wallet, its source or its destination. */
  function Touches(k: int): Tx -> bool {
    (t: Tx) => t.walletId == Some(k) || t.fromWalletId == Some(k) || t.toWalletId == Some(k)
  }

  /** The transaction is of type `kind` and booked on wallet `k` (`t.walletId === id`). */
  function BookedOn(k: int, kind: string): Tx -> bool {
    (t: Tx) => t.kind == kind && t.walletId == Some(k)
  }

  function AmountOf(t: Tx): int {
    t.amount
  }

  /** The term of a wallet total: the amount of a transaction of type `kind` booked on wallet `k`. */
  function OwnAmount(k: int, kind: string): Tx -> int {
    (t: Tx) => if t.kind == kind && t.walletId == Some(k) then t.amount else 0
  }

  /** `walletTransactions`: the transactions touching wallet `k`, newest first. */
  function WalletTransactions(ts: seq<Tx>, k: int): (r: seq<Tx>)
    ensures SortedBy(r, NewestFirst)
    ensures multiset(r) == multiset(Filter(ts, Touches(k)))
    ensures forall t :: t in r <==> t in ts && (t.walletId == Some(k) || t.fromWalletId == Some(k) || t.toWalletId == Some(k))
  {
    NewestFirstOrder();
    var kept := Filter(ts, Touches(k));
    SortCorrect(kept, NewestFirst);
    var r := Sort(kept, NewestFirst);
    forall t ensures t in r <==> t in ts && (t.walletId == Some(k) || t.fromWalletId == Some(k) || t.toWalletId == Some(k)) {
      assert t in r <==> t in multiset(r);
      FilterIn(ts, Touches(k), t);
    }
    r
  }

  /**
   * A wallet total: the list filtered to type `kind` booked on wallet `k`, amounts added
   * up. It is the sum over every transaction of the amounts of that type booked on `k`.
   */
  function WalletTotal(ts: seq<Tx>, k: int, kind: string): (r: int)
    ensures r == Sum(ts, OwnAmount(k, kind))
  {
    var listed := WalletTransactions(ts, k);
    var r := Sum(Filter(listed, BookedOn(k, kind)), AmountOf);
    var kept := Filter(ts, Touches(k));
    SumFilter(listed, BookedOn(k, kind), AmountOf, OwnAmount(k, kind));
    SumPerm(listed, kept, OwnAmount(k, kind));
    forall i | 0 <= i < |ts|
      ensures OwnAmount(k, kind)(ts[i]) == if Touches(k)(ts[i]) then OwnAmount(k, kind)(ts[i]) else 0
    {
    }
    SumFilter(ts, Touches(k), OwnAmount(k, kind), OwnAmount(k, kind));
    r
  }

  /**
   * The page for route id `id`: not found when no wallet has that id; otherwise the
   * wallet, the transactions touching it, and its income and expense totals.
   */
  function WalletDetail(ws: seq<Wal>, ts: seq<Tx>, id: string): (r: Detail)
    ensures r.NotFound? <==> GetWalletById(ws, id).None?
    ensures r.View? ==> r.wallet == GetWalletById(ws, id).value && Some(r.wallet.id) == ParseIntJs(id)
    ensures r.View? ==> r.transactions == WalletTransactions(ts, r.wallet.id)
    ensures r.View? ==> r.totalIncome == Sum(ts, OwnAmount(r.wallet.id, "income"))
    ensures r.View? ==> r.totalExpense == Sum(ts, OwnAmount(r.wallet.id, "expense"))
  {
    var wallet := GetWalletById(ws, id);
    if wallet.None? then NotFound
    else
      var k := wallet.value.id;
      View(wallet.value, WalletTransactions(ts, k), WalletTotal(ts, k, "income"), WalletTotal(ts, k, "expense"))
  }

  /**
   * A transfer into or out of the wallet is listed, but is neither income nor expense
   * of the wallet: adding one leaves both totals unchanged.
   */
  lemma TransferListedNotCounted(ws: seq<Wal>, ts: seq<Tx>, id: string, t: Tx)
    requires t.kind == "transfer"
    requires WalletDetail(ws, ts, id).View?
    ensures var k := WalletDetail(ws, ts, id).wallet.id;
            (t.toWalletId == Some(k) || t.fromWalletId == Some(k)) ==> t in WalletDetail(ws, ts + [t], id).transactions
    ensures WalletDetail(ws, ts + [t], id).totalIncome == WalletDetail(ws, ts, id).totalIncome
    ensures WalletDetail(ws, ts + [t], id).totalExpense == WalletDetail(ws, ts, id).totalExpense
  {
    assert (ts + [t])[..|ts|] == ts;
  }

  /** A JavaScript value as `===` compares it: a number, a string, or `undefined`. */
  datatype JsValue = JsUndefined | JsNumber(n: int) | JsString(s: string)

  function NumberOrUndefined(o: Option<int>): JsValue {
    if o.Some? then JsNumber(o.value) else JsUndefined
  }

  /**
   * The filter as written: `t.walletId === id || ...` with `id` the route parameter,
   * which is a string, while the wallet references are numbers or `undefined`.
   */
  function TouchesAsWritten(id: string): Tx -> bool {
    (t: Tx) => NumberOrUndefined(t.walletId) == JsString(id)
               || NumberOrUndefined(t.fromWalletId) == JsString(id)
               || NumberOrUndefined(t.toWalletId) == JsString(id)
  }

  /** The wallet view as written: the list and totals computed against the route string. */
  function WalletDetailAsWritten(ws: seq<Wal>, ts: seq<Tx>, id: string): Detail {
    var wallet := GetWalletById(ws, id);
    if wallet.None? then NotFound
    else
      var listed := Sort(Filter(ts, TouchesAsWritten(id)), NewestFirst);
      var income := Sum(Filter(listed, (t: Tx) => t.kind == "income" && NumberOrUndefined(t.walletId) == JsString(id)), AmountOf);
      var expense := Sum(Filter(listed, (t: Tx) => t.kind == "expense" && NumberOrUndefined(t.walletId) == JsString(id)), AmountOf);
      View(wallet.value, listed, income, expense)
  }

  /** As written, a found wallet always shows an empty list and zero totals. */
  lemma AsWrittenShowsNothing(ws: seq<Wal>, ts: seq<Tx>, id: string)
    requires WalletDetailAsWritten(ws, ts, id).View?
    ensures WalletDetailAsWritten(ws, ts, id).transactions == []
    ensures WalletDetailAsWritten(ws, ts, id).totalIncome == 0 && WalletDetailAsWritten(ws, ts, id).totalExpense == 0
  {
    NothingKept(ts, id);
    SortCorrect([], NewestFirst);
    var listed := Sort(Filter(ts, TouchesAsWritten(id)), NewestFirst);
    assert |multiset(listed)| == 0;
    assert listed == [];
  }

  /** No number or `undefined` is `===` a string: the filter as written keeps nothing. */
  lemma NothingKept(ts: seq<Tx>, id: string)
    ensures Filter(ts, TouchesAsWritten(id)) == []
  {
    var kept := Filter(ts, TouchesAsWritten(id));
    forall t ensures multiset(kept)[t] == 0 {
      FilterMultiset(ts, TouchesAsWritten(id), t);
    }
    assert multiset(kept) == multiset{};
  }

  /**
   * An income of 100 booked on wallet 1, opened at route "1": the page as written lists
   * nothing and shows no income; the corrected page lists it and counts it.
   */
  lemma AsWrittenMissesIncome()
    ensures var w := Wal(1, "Dompet", "cash", Some(0), None);
            var t := Tx(7, "income", 100, "Gaji", "", 0, Some(1), None, None);
            && WalletDetailAsWritten([w], [t], "1") == View(w, [], 0, 0)
            && WalletDetail([w], [t], "1") == View(w, [t], 100, 0)
  {
    var w := Wal(1, "Dompet", "cash", Some(0), None);
    var t := Tx(7, "income", 100, "Gaji", "", 0, Some(1), None, None);
    ParseIntRoundTrip(1);
    assert IntToString(1) == "1";
    AsWrittenShowsNothing([w], [t], "1");
    assert Filter([t], Touches(1)) == [t] by {
      assert [t][..0] == [];
    }
    SortCorrect([t], NewestFirst);
  }
}
