/**
 * The balance maintainer (backend/internal/service/transaction_service.go). Creating a
 * transaction checks the request in a fixed order, writes the new absolute balances
 * one wallet at a time, then inserts the record; deleting one writes the reversing
 * balances and removes the record. Store writes can fail: which ones do is a parameter,
 * so that the compensating write of a failed transfer and the writes that are not
 * undone when a later step fails are part of the model.
 */
module TransactionService {
  import opened Wrappers
  import opened Domain
  import opened Folds
  import opened Sorting
  import opened Ledger
  import opened TransactionRepository
  import opened WalletRepository

  /** `CreateTransactionRequest`: the type is the raw string the client sent. */
  datatype CreateRequest = CreateRequest(
    walletId: int,
    kind: string,
    amount: int,
    category: string,
    description: string,
    date: string,
    toWalletId: Option<int>)

  /** Which store writes of one create fail. */
  datatype CreateFaults = CreateFaults(sourceWrite: bool, destWrite: bool, rollbackWrite: bool, insert: bool)

  /** Which store writes of one delete fail. */
  datatype DeleteFaults = DeleteFaults(sourceWrite: bool, destWrite: bool, remove: bool)

  /**
   * The transaction date: the current time for an empty string, else the string read as
   * `YYYY-MM-DD`, else read as RFC 3339. The two readers are `time.Parse`, left opaque.
   */
  function RequestDate(s: string, now: int, parseDay: string -> Option<int>, parseRfc3339: string -> Option<int>): Option<int> {
    if s == "" then Some(now)
    else if parseDay(s).Some? then parseDay(s)
    else parseRfc3339(s)
  }

  /**
   * The checks of `CreateTransaction`, in the source's order: amount, date, source
   * wallet found and owned, type, then per type the funds and destination checks. The
   * result is the first failing check's error, or the record to post (its id and
   * timestamps not yet assigned).
   */
  function Decide(u: int, req: CreateRequest, rows: map<int, Wallet>, now: int,
                  parseDay: string -> Option<int>, parseRfc3339: string -> Option<int>): (r: Result<Transaction>)
    ensures req.amount <= 0 ==> r == Err("amount must be greater than zero")
    ensures req.amount > 0 && RequestDate(req.date, now, parseDay, parseRfc3339).None? ==>
              r == Err("invalid date format (use YYYY-MM-DD or RFC3339)")
    ensures r.Ok? ==> && WellFormed(r.value) && Postable(BalancesOf(rows), r.value)
                      && r.value.userId == u && rows[r.value.walletId].userId == u
                      && (r.value.kind == Transfer ==> rows[r.value.toWalletId.value].userId == u)
                      && (r.value.kind != Income ==> rows[r.value.walletId].balance >= r.value.amount)
                      && TypeName(r.value.kind) == req.kind
                      && Some(r.value.date) == RequestDate(req.date, now, parseDay, parseRfc3339)
                      && r.value.walletId == req.walletId && r.value.amount == req.amount
                      && r.value.toWalletId == req.toWalletId
                      && r.value.category == req.category && r.value.description == req.description
  {
    var date := RequestDate(req.date, now, parseDay, parseRfc3339);
    if req.amount <= 0 then Err("amount must be greater than zero")
    else if date.None? then Err("invalid date format (use YYYY-MM-DD or RFC3339)")
    else if req.walletId !in rows then Err("wallet not found")
    else if rows[req.walletId].userId != u then Err("unauthorized access to wallet")
    else
      var balance := rows[req.walletId].balance;
      var t := Transaction(0, u, req.walletId, Income, req.amount, req.category, req.description,
                           date.value, req.toWalletId, 0, 0);
      match ParseTxType(req.kind)
      case None => Err("invalid transaction type")
      case Some(Expense) =>
        if balance < req.amount then Err("insufficient balance") else Ok(t.(kind := Expense))
      case Some(Income) => Ok(t)
      case Some(Transfer) =>
        if req.toWalletId.None? then Err("destination wallet is required for transfer")
        else if req.toWalletId.value == req.walletId then Err("cannot transfer to the same wallet")
        else if balance < req.amount then Err("insufficient balance")
        else if req.toWalletId.value !in rows then Err("destination wallet not found")
        else if rows[req.toWalletId.value].userId != u then Err("unauthorized access to destination wallet")
        else Ok(t.(kind := Transfer))
  }

  /** An owned source wallet and a positive amount are all that an income needs: there is no funds check. */
  lemma IncomeNeedsNoFunds(u: int, req: CreateRequest, rows: map<int, Wallet>, now: int,
                           parseDay: string -> Option<int>, parseRfc3339: string -> Option<int>)
    requires req.amount > 0 && RequestDate(req.date, now, parseDay, parseRfc3339).Some?
    requires req.walletId in rows && rows[req.walletId].userId == u && req.kind == "income"
    ensures Decide(u, req, rows, now, parseDay, parseRfc3339).Ok?
  {
  }

  /**
   * An expense is refused with "insufficient balance" exactly when the balance is below
   * the amount: spending the whole balance is allowed.
   */
  lemma ExpenseFunds(u: int, req: CreateRequest, rows: map<int, Wallet>, now: int,
                     parseDay: string -> Option<int>, parseRfc3339: string -> Option<int>)
    requires req.amount > 0 && RequestDate(req.date, now, parseDay, parseRfc3339).Some?
    requires req.walletId in rows && rows[req.walletId].userId == u && req.kind == "expense"
    ensures (Decide(u, req, rows, now, parseDay, parseRfc3339) == Err("insufficient balance"))
              == (rows[req.walletId].balance < req.amount)
    ensures Decide(u, req, rows, now, parseDay, parseRfc3339).Ok? == (rows[req.walletId].balance >= req.amount)
  {
  }

  /** A transfer to its own source wallet is refused whatever the balance. */
  lemma TransferToSelfRefused(u: int, req: CreateRequest, rows: map<int, Wallet>, now: int,
                              parseDay: string -> Option<int>, parseRfc3339: string -> Option<int>)
    requires req.amount > 0 && RequestDate(req.date, now, parseDay, parseRfc3339).Some?
    requires req.walletId in rows && rows[req.walletId].userId == u && req.kind == "transfer"
    requires req.toWalletId == Some(req.walletId)
    ensures Decide(u, req, rows, now, parseDay, parseRfc3339) == Err("cannot transfer to the same wallet")
  {
  }

  /**
   * The balances after the writes of a create that went through: the source write,
   * for a transfer the destination write, and when that one fails the write that puts
   * the source back.
   */
  function CreateWrites(b: Balances, t: Transaction, f: CreateFaults): Balances
    requires Postable(b, t)
  {
    var w := t.walletId;
    if f.sourceWrite then b
    else if t.kind != Transfer || !f.destWrite then Post(b, t)
    else if f.rollbackWrite then b[w := b[w] - t.amount]
    else b
  }

  /** The id and timestamps the insert assigns do not change what a record posts. */
  lemma PostIgnoresStamps(b: Balances, t: Transaction, id: int, now: int)
    requires Postable(b, t)
    ensures Postable(b, t.(id := id, createdAt := now, updatedAt := now))
    ensures Post(b, t.(id := id, createdAt := now, updatedAt := now)) == Post(b, t)
  {
  }

  /** The wallet ids a create writes to, under the faults `f`. */
  function CreateWritten(t: Transaction, f: CreateFaults): set<int>
    requires t.kind == Transfer ==> t.toWalletId.Some?
  {
    if f.sourceWrite then {}
    else if t.kind == Transfer && !f.destWrite then {t.walletId, t.toWalletId.value}
    else {t.walletId}
  }

  /** The error a create returns when one of its balance writes fails, if one does. */
  function CreateWriteError(t: Transaction, f: CreateFaults): Option<string> {
    if f.sourceWrite then
      Some(if t.kind == Transfer then "failed to update source wallet balance" else "failed to update wallet balance")
    else if t.kind == Transfer && f.destWrite then Some("failed to update destination wallet balance")
    else None
  }

  /** Without faults the writes are exactly `Post`; a failed credit that is rolled back leaves every balance as it was. */
  lemma CreateWritesFaults(b: Balances, t: Transaction, f: CreateFaults)
    requires Postable(b, t) && WellFormed(t)
    ensures !f.sourceWrite && !f.destWrite ==> CreateWrites(b, t, f) == Post(b, t)
    ensures t.kind == Transfer && !f.sourceWrite && f.destWrite && !f.rollbackWrite ==> CreateWrites(b, t, f) == b
    ensures t.kind == Transfer && !f.sourceWrite && f.destWrite && f.rollbackWrite ==>
              CreateWrites(b, t, f)[t.walletId] == b[t.walletId] - t.amount
  {
  }

  /**
   * The balances after the writes of a delete that went through. Expense and income
   * write the source only. A transfer whose destination is named and found writes both
   * wallets, each from the balance read before either write, and a failed write is
   * ignored; otherwise it writes nothing.
   */
  function DeleteWrites(b: Balances, t: Transaction, f: DeleteFaults): Balances
    requires t.walletId in b
  {
    var w := t.walletId;
    match t.kind
    case Expense => if f.sourceWrite then b else b[w := b[w] + t.amount]
    case Income => if f.sourceWrite then b else b[w := b[w] - t.amount]
    case Transfer =>
      if t.toWalletId.Some? && t.toWalletId.value in b then
        var d := t.toWalletId.value;
        var b1 := if f.sourceWrite then b else b[w := b[w] + t.amount];
        if f.destWrite then b1 else b1[d := b[d] - t.amount]
      else b
  }

  /** The wallet ids a delete writes to, under the faults `f`. */
  function DeleteWritten(b: Balances, t: Transaction, f: DeleteFaults): set<int> {
    var source := if f.sourceWrite then {} else {t.walletId};
    match t.kind
    case Transfer =>
      if t.toWalletId.Some? && t.toWalletId.value in b then
        source + if f.destWrite then {} else {t.toWalletId.value}
      else {}
    case _ => source
  }

  /** Without faults the writes of a delete are exactly `Unpost`. */
  lemma DeleteWritesNoFaults(b: Balances, t: Transaction)
    requires t.walletId in b
    ensures DeleteWrites(b, t, DeleteFaults(false, false, false)) == Unpost(b, t)
  {
  }

  /**
   * The wallet table after the writes of an accepted create: the source write, for a
   * transfer the destination write from the balance read before the debit, and when that
   * one fails the write that puts the source back. Each write stamps `updated_at`.
   */
  function CreateRows(rows: map<int, Wallet>, t: Transaction, now: int, f: CreateFaults): map<int, Wallet>
    requires t.walletId in rows && (t.kind == Transfer ==> t.toWalletId.Some? && t.toWalletId.value in rows)
  {
    var w := t.walletId;
    var source := rows[w].balance;
    if f.sourceWrite then rows
    else match t.kind
      case Expense => WithBalance(rows, w, source - t.amount, now)
      case Income => WithBalance(rows, w, source + t.amount, now)
      case Transfer =>
        var d := t.toWalletId.value;
        var debited := WithBalance(rows, w, source - t.amount, now);
        if !f.destWrite then WithBalance(debited, d, rows[d].balance + t.amount, now)
        else if f.rollbackWrite then debited
        else WithBalance(debited, w, source, now)
  }

  /**
   * The table a create leaves has the balances `CreateWrites` gives, and differs from
   * the old one only in the balance and `updated_at` of the wallets written.
   */
  lemma CreateRowsEffect(rows: map<int, Wallet>, t: Transaction, now: int, f: CreateFaults)
    requires Postable(BalancesOf(rows), t) && WellFormed(t)
    ensures BalancesOf(CreateRows(rows, t, now, f)) == CreateWrites(BalancesOf(rows), t, f)
    ensures BalanceWritesOnly(rows, CreateRows(rows, t, now, f), CreateWritten(t, f), now)
  {
    var w := t.walletId;
    var source := rows[w].balance;
    var b := BalancesOf(rows);
    var after := CreateRows(rows, t, now, f);
    if f.sourceWrite {
      assert after == rows;
    } else if t.kind == Expense {
      assert after == WithBalance(rows, w, source - t.amount, now);
      assert CreateWrites(b, t, f) == b[w := source - t.amount];
      BalanceWrite(rows, w, source - t.amount, now);
    } else if t.kind == Income {
      assert after == WithBalance(rows, w, source + t.amount, now);
      assert CreateWrites(b, t, f) == b[w := source + t.amount];
      BalanceWrite(rows, w, source + t.amount, now);
    } else {
      CreateTransferEffect(rows, t, now, f);
    }
  }

  /**
   * Writing a wallet's balance and then writing back the balance it had leaves every
   * balance as it was; only that wallet's `updated_at` has moved.
   */
  lemma RestoreWrite(rows: map<int, Wallet>, id: int, x: int, now: int)
    requires id in rows
    ensures BalanceWritesOnly(rows, WithBalance(WithBalance(rows, id, x, now), id, rows[id].balance, now), {id}, now)
    ensures BalancesOf(WithBalance(WithBalance(rows, id, x, now), id, rows[id].balance, now)) == BalancesOf(rows)
  {
    var b := BalancesOf(rows);
    assert {id, id} == {id};
    assert b[id := x][id := b[id]] == b;
    TwoBalanceWrites(rows, id, x, id, rows[id].balance, now);
  }

  /** The transfer case of `CreateRowsEffect`. */
  lemma CreateTransferEffect(rows: map<int, Wallet>, t: Transaction, now: int, f: CreateFaults)
    requires Postable(BalancesOf(rows), t) && WellFormed(t) && t.kind == Transfer && !f.sourceWrite
    ensures BalancesOf(CreateRows(rows, t, now, f)) == CreateWrites(BalancesOf(rows), t, f)
    ensures BalanceWritesOnly(rows, CreateRows(rows, t, now, f), CreateWritten(t, f), now)
  {
    var w, d := t.walletId, t.toWalletId.value;
    var source := rows[w].balance;
    var b := BalancesOf(rows);
    assert w in rows && d in rows && b[w] == source;
    var debited := WithBalance(rows, w, source - t.amount, now);
    var after := CreateRows(rows, t, now, f);
    if !f.destWrite {
      assert after == WithBalance(debited, d, rows[d].balance + t.amount, now);
      assert CreateWrites(b, t, f) == b[w := source - t.amount][d := b[d] + t.amount];
      TwoBalanceWrites(rows, w, source - t.amount, d, rows[d].balance + t.amount, now);
    } else if f.rollbackWrite {
      assert after == debited;
      BalanceWrite(rows, w, source - t.amount, now);
    } else {
      assert after == WithBalance(debited, w, source, now);
      assert CreateWrites(b, t, f) == b;
      RestoreWrite(rows, w, source - t.amount, now);
    }
  }

  /**
   * The wallet table after the reversing writes of a delete, each from the balance read
   * before either write, each stamping `updated_at`. A transfer is reversed only when its
   * destination is named and found.
   */
  function DeleteRows(rows: map<int, Wallet>, t: Transaction, now: int, f: DeleteFaults): map<int, Wallet>
    requires t.walletId in rows
  {
    var w := t.walletId;
    var source := rows[w].balance;
    match t.kind
    case Expense => if f.sourceWrite then rows else WithBalance(rows, w, source + t.amount, now)
    case Income => if f.sourceWrite then rows else WithBalance(rows, w, source - t.amount, now)
    case Transfer =>
      if t.toWalletId.Some? && t.toWalletId.value in rows then
        var d := t.toWalletId.value;
        var credited := if f.sourceWrite then rows else WithBalance(rows, w, source + t.amount, now);
        if f.destWrite then credited else WithBalance(credited, d, rows[d].balance - t.amount, now)
      else rows
  }

  /**
   * The table a delete leaves has the balances `DeleteWrites` gives, and differs from
   * the old one only in the balance and `updated_at` of the wallets written.
   */
  lemma DeleteRowsEffect(rows: map<int, Wallet>, t: Transaction, now: int, f: DeleteFaults)
    requires t.walletId in rows
    ensures BalancesOf(DeleteRows(rows, t, now, f)) == DeleteWrites(BalancesOf(rows), t, f)
    ensures BalanceWritesOnly(rows, DeleteRows(rows, t, now, f), DeleteWritten(BalancesOf(rows), t, f), now)
  {
    var w := t.walletId;
    var source := rows[w].balance;
    var b := BalancesOf(rows);
    var after := DeleteRows(rows, t, now, f);
    if t.kind == Transfer {
      DeleteTransferEffect(rows, t, now, f);
    } else if f.sourceWrite {
      assert after == rows;
    } else if t.kind == Expense {
      assert after == WithBalance(rows, w, source + t.amount, now);
      assert DeleteWrites(b, t, f) == b[w := source + t.amount];
      BalanceWrite(rows, w, source + t.amount, now);
    } else {
      assert after == WithBalance(rows, w, source - t.amount, now);
      assert DeleteWrites(b, t, f) == b[w := source - t.amount];
      BalanceWrite(rows, w, source - t.amount, now);
    }
  }

  /** The transfer case of `DeleteRowsEffect`. */
  lemma DeleteTransferEffect(rows: map<int, Wallet>, t: Transaction, now: int, f: DeleteFaults)
    requires t.walletId in rows && t.kind == Transfer
    ensures BalancesOf(DeleteRows(rows, t, now, f)) == DeleteWrites(BalancesOf(rows), t, f)
    ensures BalanceWritesOnly(rows, DeleteRows(rows, t, now, f), DeleteWritten(BalancesOf(rows), t, f), now)
  {
    var w := t.walletId;
    var source := rows[w].balance;
    var b := BalancesOf(rows);
    var after := DeleteRows(rows, t, now, f);
    if t.toWalletId.Some? && t.toWalletId.value in rows {
      var d := t.toWalletId.value;
      if !f.sourceWrite && !f.destWrite {
        assert after == WithBalance(WithBalance(rows, w, source + t.amount, now), d, rows[d].balance - t.amount, now);
        assert DeleteWrites(b, t, f) == b[w := source + t.amount][d := b[d] - t.amount];
        assert DeleteWritten(b, t, f) == {w, d};
        TwoBalanceWrites(rows, w, source + t.amount, d, rows[d].balance - t.amount, now);
      } else if !f.sourceWrite {
        assert after == WithBalance(rows, w, source + t.amount, now);
        assert DeleteWrites(b, t, f) == b[w := source + t.amount];
        assert DeleteWritten(b, t, f) == {w};
        BalanceWrite(rows, w, source + t.amount, now);
      } else if !f.destWrite {
        assert after == WithBalance(rows, d, rows[d].balance - t.amount, now);
        assert DeleteWrites(b, t, f) == b[d := b[d] - t.amount];
        assert DeleteWritten(b, t, f) == {d};
        BalanceWrite(rows, d, rows[d].balance - t.amount, now);
      } else {
        assert after == rows;
      }
    } else {
      assert after == rows;
    }
  }

  class TransactionBook {
    const wallets: WalletStore
    const txs: TransactionStore
    /** The balance each wallet was opened with: the reference of the ledger invariant. */
    ghost var opening: map<int, int>

    ghost predicate Valid()
      reads this, wallets, txs
    {
      wallets.Valid() && txs.Valid()
    }

    /** The ledger invariant over the two stores. */
    ghost predicate Balanced()
      reads this, wallets, txs
    {
      Consistent(wallets.Balances(), opening, txs.rows)
    }

    constructor (wallets: WalletStore, txs: TransactionStore)
      ensures this.wallets == wallets && this.txs == txs && opening == wallets.Balances()
    {
      this.wallets := wallets;
      this.txs := txs;
      opening := wallets.Balances();
    }


    /**
     * The `switch` of `CreateTransaction` once the checks have passed: the absolute
     * balance writes, and the compensating write when crediting the destination fails.
     */
    method PostWrites(t: Transaction, now: int, f: CreateFaults) returns (r: Outcome)
      requires wallets.Valid() && Postable(wallets.Balances(), t) && WellFormed(t)
      modifies wallets
      ensures wallets.Valid()
      ensures wallets.rows == CreateRows(old(wallets.rows), t, now, f)
      ensures wallets.Balances() == CreateWrites(old(wallets.Balances()), t, f)
      ensures BalanceWritesOnly(old(wallets.rows), wallets.rows, CreateWritten(t, f), now)
      ensures r == if CreateWriteError(t, f).Some? then Fail(CreateWriteError(t, f).value) else Pass
    {
      CreateRowsEffect(wallets.rows, t, now, f);
      if t.kind == Transfer {
        r := PostTransfer(t, now, f);
      } else {
        var source := wallets.FindByID(t.walletId);
        var w := source.value;
        var balance := if t.kind == Expense then w.balance - t.amount else w.balance + t.amount;
        var out := wallets.UpdateBalance(w.id, balance, now, f.sourceWrite);
        if out.Fail? {
          return Fail("failed to update wallet balance");
        }
        r := Pass;
      }
    }

    /** The transfer case of `PostWrites`: debit, credit, and the compensating write. */
    method PostTransfer(t: Transaction, now: int, f: CreateFaults) returns (r: Outcome)
      requires wallets.Valid() && Postable(wallets.Balances(), t) && WellFormed(t) && t.kind == Transfer
      modifies wallets
      ensures wallets.Valid()
      ensures wallets.rows == CreateRows(old(wallets.rows), t, now, f)
      ensures r == if CreateWriteError(t, f).Some? then Fail(CreateWriteError(t, f).value) else Pass
    {
      var source := wallets.FindByID(t.walletId);
      var w := source.value;
      var dest := wallets.FindByID(t.toWalletId.value);
      var out := wallets.UpdateBalance(w.id, w.balance - t.amount, now, f.sourceWrite);
      if out.Fail? {
        return Fail("failed to update source wallet balance");
      }
      out := wallets.UpdateBalance(dest.value.id, dest.value.balance + t.amount, now, f.destWrite);
      if out.Fail? {
        out := wallets.UpdateBalance(w.id, w.balance, now, f.rollbackWrite);
        return Fail("failed to update destination wallet balance");
      }
      r := Pass;
    }

    /**
     * `CreateTransaction`. A refused request writes nothing and returns the first failing
     * check's error. An accepted one writes the balances `CreateWrites` describes and,
     * when those went through, inserts the record; a failed insert leaves the balances
     * written. Without faults the ledger invariant is kept.
     */
    method CreateTransaction(u: int, req: CreateRequest, now: int,
                             parseDay: string -> Option<int>, parseRfc3339: string -> Option<int>,
                             f: CreateFaults) returns (r: Result<Transaction>)
      requires Valid()
      modifies wallets, txs
      ensures Valid()
      ensures var d := Decide(u, req, old(wallets.rows), now, parseDay, parseRfc3339);
              && (d.Err? ==> r == d && unchanged(wallets, txs))
              && (d.Ok? ==>
                    var t := d.value;
                    && wallets.Balances() == CreateWrites(old(wallets.Balances()), t, f)
                    && BalanceWritesOnly(old(wallets.rows), wallets.rows, CreateWritten(t, f), now)
                    && (CreateWriteError(t, f).Some? ==> r == Err(CreateWriteError(t, f).value))
                    && (CreateWriteError(t, f).None? && f.insert ==> r == Err("failed to create transaction"))
                    && (r.Ok? <==> !f.sourceWrite && (t.kind == Transfer ==> !f.destWrite) && !f.insert)
                    && (r.Ok? ==> && r.value == t.(id := old(txs.nextId), createdAt := now, updatedAt := now)
                                  && txs.rows == old(txs.rows) + [r.value])
                    && (r.Err? ==> txs.rows == old(txs.rows)))
      ensures f == CreateFaults(false, false, false, false) && old(Balanced()) ==> Balanced()
    {
      ghost var b := wallets.Balances();
      var d := Decide(u, req, wallets.rows, now, parseDay, parseRfc3339);
      if d.Err? {
        return d;
      }
      var t := d.value;
      var written := PostWrites(t, now, f);
      if written.Fail? {
        return Err(written.msg);
      }
      r := txs.Create(t, now, f.insert);
      if r.Ok? && old(Balanced()) {
        CreateWritesFaults(b, t, f);
        PostIgnoresStamps(b, t, old(txs.nextId), now);
        PostKeepsConsistent(b, opening, old(txs.rows), r.value);
      }
    }

    /**
     * The `switch` of `DeleteTransaction`: the reversing writes. Expense and income
     * report a failed write; the transfer writes ignore theirs.
     */
    method UnpostWrites(t: Transaction, now: int, f: DeleteFaults) returns (ok: bool)
      requires wallets.Valid() && t.walletId in wallets.rows
      modifies wallets
      ensures wallets.Valid()
      ensures wallets.rows == DeleteRows(old(wallets.rows), t, now, f)
      ensures wallets.Balances() == DeleteWrites(old(wallets.Balances()), t, f)
      ensures BalanceWritesOnly(old(wallets.rows), wallets.rows, DeleteWritten(old(wallets.Balances()), t, f), now)
      ensures ok <==> (t.kind != Transfer ==> !f.sourceWrite)
    {
      DeleteRowsEffect(wallets.rows, t, now, f);
      var source := wallets.FindByID(t.walletId);
      var w := source.value;
      ok := true;
      match t.kind {
        case Expense =>
          var out := wallets.UpdateBalance(w.id, w.balance + t.amount, now, f.sourceWrite);
          ok := out.Pass?;
        case Income =>
          var out := wallets.UpdateBalance(w.id, w.balance - t.amount, now, f.sourceWrite);
          ok := out.Pass?;
        case Transfer =>
          UnpostTransfer(t, now, f);
      }
    }

    /**
     * The transfer case of `UnpostWrites`: when the destination is named and found, both
     * reversing writes from the balances read before either, their failures ignored.
     */
    method UnpostTransfer(t: Transaction, now: int, f: DeleteFaults)
      requires wallets.Valid() && t.walletId in wallets.rows && t.kind == Transfer
      modifies wallets
      ensures wallets.Valid()
      ensures wallets.rows == DeleteRows(old(wallets.rows), t, now, f)
    {
      if t.toWalletId.Some? {
        var source := wallets.FindByID(t.walletId);
        var w := source.value;
        var dest := wallets.FindByID(t.toWalletId.value);
        if dest.Ok? {
          var out := wallets.UpdateBalance(w.id, w.balance + t.amount, now, f.sourceWrite);
          out := wallets.UpdateBalance(dest.value.id, dest.value.balance - t.amount, now, f.destWrite);
        }
      }
    }

    /**
     * The second half of `DeleteTransaction`, once the record at index `i` and its
     * source wallet are found: the reversing writes, then the removal of the record.
     */
    method ReverseAndRemove(t: Transaction, ghost i: nat, now: int, f: DeleteFaults) returns (r: Outcome)
      requires Valid() && i < |txs.rows| && txs.rows[i] == t && t.walletId in wallets.rows
      modifies wallets, txs
      ensures Valid()
      ensures wallets.Balances() == DeleteWrites(old(wallets.Balances()), t, f)
      ensures BalanceWritesOnly(old(wallets.rows), wallets.rows, DeleteWritten(old(wallets.Balances()), t, f), now)
      ensures r == Pass <==> (t.kind != Transfer ==> !f.sourceWrite) && !f.remove
      ensures r == Pass ==> txs.rows == old(txs.rows[..i] + txs.rows[i + 1..])
      ensures r != Pass ==> txs.rows == old(txs.rows)
      ensures f == DeleteFaults(false, false, false) && old(Balanced()) ==> Balanced()
    {
      ghost var b := wallets.Balances();
      ghost var log := txs.rows;
      var ok := UnpostWrites(t, now, f);
      if !ok {
        return Fail("failed to update wallet balance");
      }
      var removed := txs.Delete(t.id, f.remove);
      if removed.Fail? {
        return Fail("failed to delete transaction");
      }
      DeleteOne(log, i);
      r := Pass;
      if f == DeleteFaults(false, false, false) {
        DeleteWritesNoFaults(b, t);
        assert wallets.Balances() == Unpost(b, log[i]);
        if Consistent(b, opening, log) {
          UnpostKeepsConsistent(b, opening, log, i);
        }
      }
    }

    /**
     * `DeleteTransaction`. A missing record, another user's record or a missing source
     * wallet is refused with nothing written. Otherwise the reversing writes
     * `DeleteWrites` describes are made and the record removed; a failed expense or
     * income write stops before the removal, failed transfer writes do not. Without
     * faults the ledger invariant is kept.
     */
    method DeleteTransaction(id: int, u: int, now: int, f: DeleteFaults) returns (r: Outcome)
      requires Valid()
      modifies wallets, txs
      ensures Valid()
      ensures (forall i :: 0 <= i < |old(txs.rows)| ==> old(txs.rows)[i].id != id) ==>
                r == Fail("transaction not found") && unchanged(wallets, txs)
      ensures forall i :: 0 <= i < |old(txs.rows)| && old(txs.rows)[i].id == id ==>
                var t := old(txs.rows)[i];
                && (t.userId != u ==> r == Fail("unauthorized access to transaction") && unchanged(wallets, txs))
                && (t.userId == u && t.walletId !in old(wallets.rows) ==>
                      r == Fail("wallet not found") && unchanged(wallets, txs))
                && (t.userId == u && t.walletId in old(wallets.rows) ==>
                      && wallets.Balances() == DeleteWrites(old(wallets.Balances()), t, f)
                      && BalanceWritesOnly(old(wallets.rows), wallets.rows, DeleteWritten(old(wallets.Balances()), t, f), now)
                      && (r == Pass <==> (t.kind != Transfer ==> !f.sourceWrite) && !f.remove)
                      && (r == Pass ==> txs.rows == old(txs.rows[..i] + txs.rows[i + 1..]))
                      && (r != Pass ==> txs.rows == old(txs.rows)))
      ensures f == DeleteFaults(false, false, false) && old(Balanced()) ==> Balanced()
    {
      ghost var b := wallets.Balances();
      ghost var log := txs.rows;
      var found := txs.FindByID(id);
      if found.Err? {
        return Fail("transaction not found");
      }
      var t := found.value;
      ghost var i :| 0 <= i < |log| && log[i] == t;
      assert forall j :: 0 <= j < |log| && log[j].id == id ==> j == i;
      if t.userId != u {
        return Fail("unauthorized access to transaction");
      }
      var source := wallets.FindByID(t.walletId);
      if source.Err? {
        return Fail("wallet not found");
      }
      r := ReverseAndRemove(t, i, now, f);
    }

    /** `GetRecentTransactions`: a limit of 0 or less means 10. */
    method GetRecentTransactions(u: int, limit: int) returns (r: Result<seq<Transaction>>)
      ensures r.Ok?
      ensures var n := if limit <= 0 then 10 else limit;
              && |r.value| == (if n < |Filter(txs.rows, OfUser(u))| then n else |Filter(txs.rows, OfUser(u))|)
              && SortedBy(r.value, NewerFirst)
              && multiset(r.value) <= multiset(Filter(txs.rows, OfUser(u)))
              && forall x, y :: x in r.value && y in multiset(Filter(txs.rows, OfUser(u))) - multiset(r.value)
                   ==> NewerFirst(x, y)
    {
      var n := limit;
      if n <= 0 {
        n := 10;
      }
      r := txs.GetRecentByUserID(u, n);
    }

    /** `GetWalletTransactions`: the wallet's listing, only for its owner. */
    method GetWalletTransactions(walletId: int, u: int) returns (r: Result<seq<Transaction>>)
      ensures walletId !in wallets.rows ==> r == Err("wallet not found")
      ensures walletId in wallets.rows && wallets.rows[walletId].userId != u ==> r == Err("unauthorized access to wallet")
      ensures walletId in wallets.rows && wallets.rows[walletId].userId == u ==>
                r.Ok? && Listing(r.value, txs.rows, OfWallet(walletId))
    {
      var w := wallets.FindByID(walletId);
      if w.Err? {
        return Err("wallet not found");
      }
      if w.value.userId != u {
        return Err("unauthorized access to wallet");
      }
      var rows := txs.FindByWalletID(walletId);
      r := Ok(rows);
    }
  }
}
