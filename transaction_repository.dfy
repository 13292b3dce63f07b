/**
 * The transactions table (backend/internal/repository/transaction_repository.go) as an
 * in-memory table. Ids come from a counter and only grow, so the table in id order is a
 * sequence; there is no update, only insert and delete. Each query states the rows its
 * SQL `WHERE` selects and the order its `ORDER BY` imposes; rows with equal keys may
 * come back in any order, so a result is specified up to that freedom.
 */
module TransactionRepository {
  import opened Wrappers
  import opened Domain
  import opened Folds
  import opened Sorting

  /** `ORDER BY date DESC, created_at DESC`: `a` may be listed before `b`. */
  predicate NewerFirst(a: Transaction, b: Transaction) {
    a.date > b.date || (a.date == b.date && a.createdAt >= b.createdAt)
  }

  lemma NewerFirstOrder()
    ensures TotalPreorder(NewerFirst)
  {
  }

  /** `WHERE user_id = $1` */
  function OfUser(u: int): Transaction -> bool {
    (t: Transaction) => t.userId == u
  }

  /** `WHERE wallet_id = $1 OR to_wallet_id = $1` */
  function OfWallet(w: int): Transaction -> bool {
    (t: Transaction) => t.walletId == w || t.toWalletId == Some(w)
  }

  /** `WHERE user_id = $1 AND date >= $2 AND date <= $3`: both ends included. */
  function OfUserBetween(u: int, start: int, end: int): Transaction -> bool {
    (t: Transaction) => t.userId == u && start <= t.date <= end
  }

  /** The rows a `DELETE ... WHERE id = $1` leaves. */
  function OtherId(id: int): Transaction -> bool {
    (t: Transaction) => t.id != id
  }

  /** A query result: exactly the rows that `p` selects, each once, in the SQL order. */
  ghost predicate Listing(r: seq<Transaction>, rows: seq<Transaction>, p: Transaction -> bool) {
    multiset(r) == multiset(Filter(rows, p)) && SortedBy(r, NewerFirst)
  }

  /** Ids strictly increase along the table, so no two rows share an id. */
  ghost predicate AscendingIds(rows: seq<Transaction>) {
    forall i, j :: 0 <= i < j < |rows| ==> rows[i].id < rows[j].id
  }

  /**
   * `GetStatsByUserID`: the per-type sums of the user's amounts, 0 for a type with no
   * rows (the `COALESCE`). The three totals split the user's whole turnover.
   */
  function Stats(rows: seq<Transaction>, u: int): (s: TransactionStats)
    ensures s.totalIncome + s.totalExpense + s.totalTransfer == Sum(Filter(rows, OfUser(u)), Amount)
  {
    var mine := Filter(rows, OfUser(u));
    var sumIE := (t: Transaction) => AmountOfType(Income)(t) + AmountOfType(Expense)(t);
    SumAdd(mine, AmountOfType(Income), AmountOfType(Expense), sumIE);
    SumAdd(mine, sumIE, AmountOfType(Transfer), Amount);
    TransactionStats(Sum(mine, AmountOfType(Income)), Sum(mine, AmountOfType(Expense)), Sum(mine, AmountOfType(Transfer)))
  }

  /** A user with no rows has all three totals 0. */
  lemma StatsOfNone(rows: seq<Transaction>, u: int)
    requires forall i :: 0 <= i < |rows| ==> rows[i].userId != u
    ensures Stats(rows, u) == TransactionStats(0, 0, 0)
  {
    assert Filter(rows, OfUser(u)) == [] by {
      if Filter(rows, OfUser(u)) != [] {
        var x := Filter(rows, OfUser(u))[0];
        FilterIn(rows, OfUser(u), x);
      }
    }
  }

  /**
   * Inserting a row moves exactly one total of its owner, the one of its type, by its
   * amount; other users' totals do not move.
   */
  lemma StatsAppend(rows: seq<Transaction>, t: Transaction, u: int)
    ensures u != t.userId ==> Stats(rows + [t], u) == Stats(rows, u)
    ensures u == t.userId ==> Stats(rows + [t], u) == match t.kind
      case Income => Stats(rows, u).(totalIncome := Stats(rows, u).totalIncome + t.amount)
      case Expense => Stats(rows, u).(totalExpense := Stats(rows, u).totalExpense + t.amount)
      case Transfer => Stats(rows, u).(totalTransfer := Stats(rows, u).totalTransfer + t.amount)
  {
    UserSumAppend(rows, t, u, Income);
    UserSumAppend(rows, t, u, Expense);
    UserSumAppend(rows, t, u, Transfer);
  }

  /** Inserting a row adds its amount to its owner's sum of its type, and to no other sum. */
  lemma UserSumAppend(rows: seq<Transaction>, t: Transaction, u: int, k: TxType)
    ensures Sum(Filter(rows + [t], OfUser(u)), AmountOfType(k))
              == Sum(Filter(rows, OfUser(u)), AmountOfType(k)) + (if t.userId == u && t.kind == k then t.amount else 0)
  {
    var mine := Filter(rows, OfUser(u));
    assert (rows + [t])[..|rows|] == rows;
    if t.userId == u {
      assert Filter(rows + [t], OfUser(u)) == mine + [t];
      SumSnoc(mine, t, AmountOfType(k));
    } else {
      assert Filter(rows + [t], OfUser(u)) == mine;
    }
  }

  class TransactionStore {
    var rows: seq<Transaction>
    var nextId: int

    ghost predicate Valid()
      reads this
    {
      && AscendingIds(rows)
      && (forall i :: 0 <= i < |rows| ==> rows[i].id < nextId)
    }

    constructor ()
      ensures Valid() && rows == [] && nextId == 1
    {
      rows := [];
      nextId := 1;
    }

    /**
     * `INSERT ... RETURNING id`: the row gets the next id and `created_at == updated_at == now`,
     * and those three are written back into the record the caller passed. A failed insert
     * changes nothing.
     */
    method Create(t: Transaction, now: int, fail: bool) returns (r: Result<Transaction>)
      requires Valid()
      modifies this
      ensures Valid()
      ensures fail ==> r == Err("failed to create transaction") && unchanged(this)
      ensures !fail ==> r == Ok(t.(id := old(nextId), createdAt := now, updatedAt := now))
      ensures !fail ==> rows == old(rows) + [r.value] && nextId == old(nextId) + 1
      ensures r.Ok? ==> forall i :: 0 <= i < |old(rows)| ==> old(rows)[i].id != r.value.id
    {
      if fail {
        return Err("failed to create transaction");
      }
      var row := t.(id := nextId, createdAt := now, updatedAt := now);
      rows := rows + [row];
      nextId := nextId + 1;
      r := Ok(row);
    }

    /** `scanTransactions` over the rows a `WHERE` clause selects, in table order. */
    method Scan(p: Transaction -> bool) returns (r: seq<Transaction>)
      ensures r == Filter(rows, p)
    {
      r := [];
      var i := 0;
      while i < |rows|
        invariant 0 <= i <= |rows|
        invariant r == Filter(rows[..i], p)
      {
        FilterStep(rows, i, p);
        if p(rows[i]) {
          r := r + [rows[i]];
        }
        i := i + 1;
      }
      assert rows[..i] == rows;
    }

    /** A selection put in the `ORDER BY date DESC, created_at DESC` order. */
    method Select(p: Transaction -> bool) returns (r: seq<Transaction>)
      ensures Listing(r, rows, p)
      ensures forall t :: t in r <==> t in rows && p(t)
    {
      var picked := Scan(p);
      NewerFirstOrder();
      SortCorrect(picked, NewerFirst);
      r := Sort(picked, NewerFirst);
      forall t ensures t in r <==> t in rows && p(t) {
        FilterIn(rows, p, t);
        assert t in r <==> t in multiset(r);
      }
    }

    /** `FindByUserID`: exactly the user's rows, newest first. */
    method FindByUserID(u: int) returns (r: seq<Transaction>)
      ensures Listing(r, rows, OfUser(u))
      ensures forall t :: t in r <==> t in rows && t.userId == u
    {
      r := Select(OfUser(u));
    }

    /** `FindByWalletID`: the rows whose source or destination is the wallet, newest first. */
    method FindByWalletID(w: int) returns (r: seq<Transaction>)
      ensures Listing(r, rows, OfWallet(w))
      ensures forall t :: t in r <==> t in rows && (t.walletId == w || t.toWalletId == Some(w))
    {
      r := Select(OfWallet(w));
    }

    /** `FindByDateRange`: the user's rows dated within `[start, end]`, both ends included. */
    method FindByDateRange(u: int, start: int, end: int) returns (r: seq<Transaction>)
      ensures Listing(r, rows, OfUserBetween(u, start, end))
      ensures forall t :: t in r <==> t in rows && t.userId == u && start <= t.date <= end
    {
      r := Select(OfUserBetween(u, start, end));
    }

    /** `FindByID`: the row with that id, or an error when there is none. */
    method FindByID(id: int) returns (r: Result<Transaction>)
      ensures r.Ok? ==> r.value in rows && r.value.id == id
      ensures r.Err? <==> forall i :: 0 <= i < |rows| ==> rows[i].id != id
    {
      var i := 0;
      while i < |rows|
        invariant 0 <= i <= |rows|
        invariant forall j :: 0 <= j < i ==> rows[j].id != id
      {
        if rows[i].id == id {
          return Ok(rows[i]);
        }
        i := i + 1;
      }
      r := Err("transaction not found");
    }

    /** `DELETE ... WHERE id = $1`: removes the row with that id; a missing id is no error. */
    method Delete(id: int, fail: bool) returns (r: Outcome)
      requires Valid()
      modifies this
      ensures Valid() && nextId == old(nextId)
      ensures fail ==> r.Fail? && unchanged(this)
      ensures !fail ==> r == Pass && rows == Filter(old(rows), OtherId(id))
    {
      if fail {
        return Fail("failed to delete transaction");
      }
      var before := (a: Transaction, b: Transaction) => a.id < b.id;
      assert SortedBy(rows, before);
      FilterSorted(rows, OtherId(id), before);
      var kept := Filter(rows, OtherId(id));
      FilterSubset(rows, OtherId(id));
      forall k | 0 <= k < |kept| ensures kept[k].id < nextId {
        assert kept[k] in rows;
      }
      rows := kept;
      r := Pass;
    }

    /**
     * `GetRecentByUserID`: the first `limit` rows of the user's listing, which are newer
     * than or as new as every row left out. A negative `LIMIT` is an SQL error.
     */
    method GetRecentByUserID(u: int, limit: int) returns (r: Result<seq<Transaction>>)
      ensures limit < 0 <==> r.Err?
      ensures r.Ok? ==> && |r.value| == (if limit < |Filter(rows, OfUser(u))| then limit else |Filter(rows, OfUser(u))|)
                        && SortedBy(r.value, NewerFirst)
                        && multiset(r.value) <= multiset(Filter(rows, OfUser(u)))
                        && forall x, y :: x in r.value && y in multiset(Filter(rows, OfUser(u))) - multiset(r.value)
                             ==> NewerFirst(x, y)
    {
      if limit < 0 {
        return Err("LIMIT must not be negative");
      }
      var all := FindByUserID(u);
      var n := if limit < |all| then limit else |all|;
      assert |all| == |Filter(rows, OfUser(u))| by {
        assert |all| == |multiset(all)|;
      }
      TopN(all, n, NewerFirst);
      PrefixSorted(all, n, NewerFirst);
      r := Ok(all[..n]);
    }
  }

  /** The rows a delete leaves are rows that were there. */
  lemma FilterSubset(rows: seq<Transaction>, p: Transaction -> bool)
    ensures forall t :: t in Filter(rows, p) ==> t in rows
  {
    forall t | t in Filter(rows, p) ensures t in rows {
      FilterIn(rows, p, t);
    }
  }

  /** With ids unique, deleting by the id of the row at `i` removes exactly that row. */
  lemma {:induction false} DeleteOne(rows: seq<Transaction>, i: nat)
    requires AscendingIds(rows) && i < |rows|
    ensures Filter(rows, OtherId(rows[i].id)) == rows[..i] + rows[i + 1..]
  {
    var id := rows[i].id;
    if i < |rows| - 1 {
      var s' := rows[..|rows| - 1];
      DeleteOne(s', i);
      assert s'[..i] + s'[i + 1..] + [rows[|rows| - 1]] == rows[..i] + rows[i + 1..];
    } else {
      var s' := rows[..|rows| - 1];
      DeleteNone(s', id);
      assert s' == rows[..i] + rows[i + 1..];
    }
  }

  /** Deleting an id no row has changes nothing. */
  lemma {:induction false} DeleteNone(rows: seq<Transaction>, id: int)
    requires forall j :: 0 <= j < |rows| ==> rows[j].id != id
    ensures Filter(rows, OtherId(id)) == rows
  {
    if rows != [] {
      DeleteNone(rows[..|rows| - 1], id);
    }
  }
}
