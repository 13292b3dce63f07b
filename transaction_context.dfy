/**
 * The transaction list the frontend keeps (frontend/src/context/TransactionContext.jsx):
 * the requests built for a new income, expense or transfer, how the list, the loading
 * flag and the error change when the API answers, and the two queries over the list.
 * The API is a parameter: a function from the request sent to the reply received.
 */
module TransactionContext {
  import opened Wrappers
  import opened Text
  import opened Folds
  import opened Sorting
  import opened FrontModel
  import opened Calculations

  /**
   * What the transaction form hands over: the amount as a number (`NaN` is None), the
   * date string, category and description, and the wallet ids as the strings of the
   * select boxes (a field the form does not send reads as "", which `||` and `parseInt`
   * treat as `undefined`).
   */
  datatype Payload = Payload(
    amount: Option<int>,
    date: string,
    category: string,
    description: string,
    walletId: string,
    fromWalletId: string,
    toWalletId: string)

  /**
   * The body of `POST /transactions`. A `NaN` from `parseInt` is sent as JSON `null`,
   * which the server reads like an absent field, so both are `None` here.
   */
  datatype Request = Request(
    walletId: Option<int>,
    kind: string,
    amount: Option<int>,
    category: string,
    description: string,
    date: string,
    toWalletId: Option<int>)

  /** The request of `addIncome`; `now` is `new Date().toISOString()`. */
  function IncomeRequest(p: Payload, now: string): (r: Request)
    ensures r.kind == "income" && r.walletId == ParseIntJs(p.walletId) && r.toWalletId == None
    ensures r.amount == p.amount
    ensures r.category != "" && (p.category != "" ==> r.category == p.category)
    ensures p.category == "" ==> r.category == "Income"
    ensures r.description == p.description
    ensures p.date != "" ==> r.date == p.date
    ensures p.date == "" ==> r.date == now
  {
    Request(ParseIntJs(p.walletId), "income", p.amount, OrElse(p.category, "Income"),
            OrElse(p.description, ""), OrElse(p.date, now), None)
  }

  /** The request of `addExpense`. */
  function ExpenseRequest(p: Payload, now: string): (r: Request)
    ensures r.kind == "expense" && r.walletId == ParseIntJs(p.walletId) && r.toWalletId == None
    ensures r.amount == p.amount
    ensures r.category != "" && (p.category != "" ==> r.category == p.category)
    ensures p.category == "" ==> r.category == "Expense"
    ensures r.description == p.description
    ensures p.date != "" ==> r.date == p.date
    ensures p.date == "" ==> r.date == now
  {
    Request(ParseIntJs(p.walletId), "expense", p.amount, OrElse(p.category, "Expense"),
            OrElse(p.description, ""), OrElse(p.date, now), None)
  }

  /**
   * The request of `addTransfer`: the source wallet goes out as `wallet_id`, the
   * destination as `to_wallet_id`, and the category is always "Transfer".
   */
  function TransferRequest(p: Payload, now: string): (r: Request)
    ensures r.kind == "transfer" && r.category == "Transfer"
    ensures r.walletId == ParseIntJs(p.fromWalletId) && r.toWalletId == ParseIntJs(p.toWalletId)
    ensures r.amount == p.amount
    ensures r.description == p.description
    ensures p.date != "" ==> r.date == p.date
    ensures p.date == "" ==> r.date == now
  {
    Request(ParseIntJs(p.fromWalletId), "transfer", p.amount, "Transfer",
            OrElse(p.description, ""), OrElse(p.date, now), ParseIntJs(p.toWalletId))
  }

  /**
   * Wallet ids chosen in the form reach the server unchanged: a select box holds the
   * decimal spelling of a wallet id, and `parseInt` reads it back.
   */
  lemma RequestWallets(p: Payload, now: string, w: int, from: int, to: int)
    requires p.walletId == IntToString(w)
    requires p.fromWalletId == IntToString(from) && p.toWalletId == IntToString(to)
    ensures IncomeRequest(p, now).walletId == Some(w)
    ensures ExpenseRequest(p, now).walletId == Some(w)
    ensures TransferRequest(p, now).walletId == Some(from)
    ensures TransferRequest(p, now).toWalletId == Some(to)
  {
    ParseIntRoundTrip(w);
    ParseIntRoundTrip(from);
    ParseIntRoundTrip(to);
  }

  /**
   * How a create settles: on success the created transaction is appended and nothing
   * else changes; a refusal returns the server's message; a thrown error returns and
   * records the body's message or the fallback. Only a success changes the list.
   */
  ghost predicate CreateSettled(reply: Reply<Tx>, fallback: string, before: seq<Tx>, after: seq<Tx>,
                                error: Option<string>, r: ActionResult<Tx>)
  {
    match reply
    case Success(d) => after == before + [d] && error == None && r == Done(Some(d))
    case Refused(e) => after == before && error == None && r == Failed(e)
    case Thrown(b) => after == before && error == Some(ThrownMessage(b, fallback)) && r == Failed(ThrownMessage(b, fallback))
  }

  /** `t.id !== id`. */
  function OtherId(id: int): Tx -> bool {
    (t: Tx) => t.id != id
  }

  /** The state of the transaction provider. */
  class TransactionProvider {
    var transactions: seq<Tx>
    var loading: bool
    var error: Option<string>

    constructor ()
      ensures transactions == [] && !loading && error == None
    {
      transactions := [];
      loading := false;
      error := None;
    }

    /**
     * `loadTransactions`: a successful reply replaces the list (`data || []`); a refusal
     * leaves it; a thrown error records its message.
     */
    method LoadTransactions(reply: Reply<Option<seq<Tx>>>)
      modifies this
      ensures !loading
      ensures reply.Success? ==> transactions == (if reply.data.Some? then reply.data.value else []) && error == None
      ensures reply.Refused? ==> transactions == old(transactions) && error == None
      ensures reply.Thrown? ==> transactions == old(transactions) && error == Some(ThrownMessage(reply.body, "Failed to load transactions"))
    {
      loading := true;
      error := None;
      match reply {
        case Success(data) =>
          transactions := if data.Some? then data.value else [];
        case Refused(_) =>
        case Thrown(body) =>
          error := Some(ThrownMessage(body, "Failed to load transactions"));
      }
      loading := false;
    }

    /** Send a create request and settle the list, the error and the result by the reply. */
    method Create(req: Request, fallback: string, send: Request -> Reply<Tx>) returns (r: ActionResult<Tx>)
      modifies this
      ensures !loading
      ensures CreateSettled(send(req), fallback, old(transactions), transactions, error, r)
    {
      loading := true;
      error := None;
      var reply := send(req);
      match reply {
        case Success(d) =>
          transactions := transactions + [d];
          r := Done(Some(d));
        case Refused(e) =>
          r := Failed(e);
        case Thrown(body) =>
          var message := ThrownMessage(body, fallback);
          error := Some(message);
          r := Failed(message);
      }
      loading := false;
    }

    /** `addIncome`. */
    method AddIncome(p: Payload, now: string, send: Request -> Reply<Tx>) returns (r: ActionResult<Tx>)
      modifies this
      ensures !loading
      ensures CreateSettled(send(IncomeRequest(p, now)), "Failed to add income", old(transactions), transactions, error, r)
    {
      r := Create(IncomeRequest(p, now), "Failed to add income", send);
    }

    /** `addExpense`. */
    method AddExpense(p: Payload, now: string, send: Request -> Reply<Tx>) returns (r: ActionResult<Tx>)
      modifies this
      ensures !loading
      ensures CreateSettled(send(ExpenseRequest(p, now)), "Failed to add expense", old(transactions), transactions, error, r)
    {
      r := Create(ExpenseRequest(p, now), "Failed to add expense", send);
    }

    /** `addTransfer`. */
    method AddTransfer(p: Payload, now: string, send: Request -> Reply<Tx>) returns (r: ActionResult<Tx>)
      modifies this
      ensures !loading
      ensures CreateSettled(send(TransferRequest(p, now)), "Failed to add transfer", old(transactions), transactions, error, r)
    {
      r := Create(TransferRequest(p, now), "Failed to add transfer", send);
    }

    /**
     * `deleteTransaction`: on success every entry with that id is dropped and the rest
     * keep their order; otherwise the list stays as it was.
     */
    method DeleteTransaction(id: int, reply: Reply<()>) returns (r: ActionResult<Tx>)
      modifies this
      ensures !loading
      ensures reply.Success? ==> transactions == Filter(old(transactions), OtherId(id)) && error == None && r == Done(None)
      ensures reply.Refused? ==> transactions == old(transactions) && error == None && r == Failed(reply.error)
      ensures reply.Thrown? ==> var m := ThrownMessage(reply.body, "Failed to delete transaction");
                                transactions == old(transactions) && error == Some(m) && r == Failed(m)
    {
      loading := true;
      error := None;
      match reply {
        case Success(_) =>
          transactions := Filter(transactions, OtherId(id));
          r := Done(None);
        case Refused(e) =>
          r := Failed(e);
        case Thrown(body) =>
          var message := ThrownMessage(body, "Failed to delete transaction");
          error := Some(message);
          r := Failed(message);
      }
      loading := false;
    }
  }

  /** After a delete, an entry remains exactly when it was there and has another id. */
  lemma DeleteExactly(ts: seq<Tx>, id: int, t: Tx)
    ensures t in Filter(ts, OtherId(id)) <==> t in ts && t.id != id
    ensures multiset(Filter(ts, OtherId(id)))[t] == if t.id != id then multiset(ts)[t] else 0
  {
    FilterIn(ts, OtherId(id), t);
    FilterMultiset(ts, OtherId(id), t);
  }

  /** Deleting the id of a transaction just added, when no other entry had it, gives back the list before the add. */
  lemma {:induction false} DeleteUndoesAdd(ts: seq<Tx>, d: Tx)
    requires forall i :: 0 <= i < |ts| ==> ts[i].id != d.id
    ensures Filter(ts + [d], OtherId(d.id)) == ts
  {
    assert (ts + [d])[..|ts|] == ts;
    FilterAll(ts, OtherId(d.id));
  }

  /** The default of `getRecentTransactions`' limit. */
  const DefaultRecentLimit: int := 10

  /**
   * `getRecentTransactions`: a copy of the list sorted newest first, cut to `limit`
   * entries (a negative limit drops entries from the end, as `slice` does). The result
   * is sorted, comes from the list, and every entry left out is no newer than every
   * entry kept. The list itself is a value here, so it cannot change.
   */
  function GetRecentTransactions(ts: seq<Tx>, limit: int): (r: seq<Tx>)
    ensures limit >= 0 ==> |r| == if limit < |ts| then limit else |ts|
    ensures limit < 0 ==> |r| == if |ts| + limit > 0 then |ts| + limit else 0
    ensures SortedBy(r, NewestFirst)
    ensures multiset(r) <= multiset(ts)
    ensures forall x, y :: x in r && y in multiset(ts) - multiset(r) ==> x.date >= y.date
  {
    RecentLength(ts);
    RecentTop(ts, limit);
    SliceTo(Sort(ts, NewestFirst), limit)
  }

  lemma RecentLength(ts: seq<Tx>)
    ensures |Sort(ts, NewestFirst)| == |ts|
  {
    NewestFirstOrder();
    SortCorrect(ts, NewestFirst);
    assert |multiset(Sort(ts, NewestFirst))| == |multiset(ts)|;
  }

  /** The cut list is sorted, comes from the list, and nothing left out is newer than what is kept. */
  lemma RecentTop(ts: seq<Tx>, limit: int)
    ensures SortedBy(SliceTo(Sort(ts, NewestFirst), limit), NewestFirst)
    ensures multiset(SliceTo(Sort(ts, NewestFirst), limit)) <= multiset(ts)
    ensures forall x, y :: (x in SliceTo(Sort(ts, NewestFirst), limit) &&
                            y in multiset(ts) - multiset(SliceTo(Sort(ts, NewestFirst), limit))) ==> x.date >= y.date
  {
    NewestFirstOrder();
    SortCorrect(ts, NewestFirst);
    var sorted := Sort(ts, NewestFirst);
    var r := SliceTo(sorted, limit);
    RecentLength(ts);
    assert r == sorted[..|r|];
    TopOf(ts, sorted, |r|, NewestFirst);
    forall x, y | x in r && y in multiset(ts) - multiset(r) ensures x.date >= y.date {
      assert NewestFirst(x, y);
    }
  }

  /** `isWithinInterval(date, { start, end })`: both ends included. */
  function Within(start: int, end: int): Tx -> bool {
    (t: Tx) => start <= t.date <= end
  }

  /**
   * `calculatePeriodTotals`: a reduce that adds each income and each expense dated in
   * the closed interval. It is `calculateTotals` of the transactions in the interval.
   */
  function CalculatePeriodTotals(ts: seq<Tx>, start: int, end: int): (r: Totals)
    ensures r == CalculateTotals(Filter(ts, Within(start, end)))
  {
    if ts == [] then Totals(0, 0)
    else
      var acc := CalculatePeriodTotals(ts[..|ts| - 1], start, end);
      var t := ts[|ts| - 1];
      var kept := Filter(ts[..|ts| - 1], Within(start, end));
      if Within(start, end)(t) then
        SumAppend(kept, [t], AmountIf("income"));
        SumAppend(kept, [t], AmountIf("expense"));
        assert [t][..0] == [];
        Totals(acc.income + (if t.kind == "income" then t.amount else 0),
               acc.expense + (if t.kind == "expense" then t.amount else 0))
      else
        assert kept + [] == kept;
        acc
  }

  /** The period totals of a list are those of its parts: the list can be totalled piecewise. */
  lemma PeriodTotalsAppend(a: seq<Tx>, b: seq<Tx>, start: int, end: int)
    ensures CalculatePeriodTotals(a + b, start, end).income ==
              CalculatePeriodTotals(a, start, end).income + CalculatePeriodTotals(b, start, end).income
    ensures CalculatePeriodTotals(a + b, start, end).expense ==
              CalculatePeriodTotals(a, start, end).expense + CalculatePeriodTotals(b, start, end).expense
  {
    FilterAppend(a, b, Within(start, end));
    TotalsAppend(Filter(a, Within(start, end)), Filter(b, Within(start, end)));
  }
}
