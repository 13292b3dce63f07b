/**
 * The wallets table (backend/internal/repository/wallet_repository.go) as an in-memory
 * table from id to row, with the id counter of its serial key. Metadata (`Update`) and
 * balance (`UpdateBalance`) are written by separate operations, and a balance write is
 * an absolute value, not a delta. Writes to a missing id succeed and change nothing,
 * as an `UPDATE`/`DELETE ... WHERE id = $n` that matches no row does.
 */
module WalletRepository {
  import opened Wrappers
  import opened Domain
  import opened Folds
  import opened Sorting

  /** `ORDER BY created_at DESC`: `a` may be listed before `b`. */
  predicate CreatedNewerFirst(a: Wallet, b: Wallet) {
    a.createdAt >= b.createdAt
  }

  lemma CreatedNewerFirstOrder()
    ensures TotalPreorder(CreatedNewerFirst)
  {
  }

  /** The metadata an `Update` writes: every column but the balance and `created_at`. */
  function WithMetadata(row: Wallet, from: Wallet, now: int): Wallet {
    row.(name := from.name, currency := from.currency, walletType := from.walletType,
         icon := from.icon, color := from.color, updatedAt := now)
  }

  /**
   * The table after balance writes to the ids in `written`: the same ids, and every row
   * as it was except that a written row has a new balance and `updated_at == now`.
   */
  ghost predicate BalanceWritesOnly(before: map<int, Wallet>, after: map<int, Wallet>, written: set<int>, now: int) {
    && after.Keys == before.Keys
    && forall id :: id in before ==>
         after[id] == if id in written then before[id].(balance := after[id].balance, updatedAt := now) else before[id]
  }

  /** The table after `UpdateBalance(id, balance)` at the time `now`: a missing id changes nothing. */
  function WithBalance(rows: map<int, Wallet>, id: int, balance: int, now: int): map<int, Wallet> {
    if id in rows then rows[id := rows[id].(balance := balance, updatedAt := now)] else rows
  }

  /**
   * The write of `UpdateBalance` to a present id is a balance write, and sets that
   * wallet's balance.
   */
  lemma BalanceWrite(rows: map<int, Wallet>, id: int, balance: int, now: int)
    requires id in rows
    ensures BalanceWritesOnly(rows, WithBalance(rows, id, balance, now), {id}, now)
    ensures BalancesOf(WithBalance(rows, id, balance, now)) == BalancesOf(rows)[id := balance]
  {
  }

  /** Two writes in a row are balance writes to both ids, setting both balances, the later one last. */
  lemma TwoBalanceWrites(rows: map<int, Wallet>, a: int, x: int, b: int, y: int, now: int)
    requires a in rows && b in rows
    ensures BalanceWritesOnly(rows, WithBalance(WithBalance(rows, a, x, now), b, y, now), {a, b}, now)
    ensures BalancesOf(WithBalance(WithBalance(rows, a, x, now), b, y, now)) == BalancesOf(rows)[a := x][b := y]
  {
    var first := WithBalance(rows, a, x, now);
    BalanceWrite(rows, a, x, now);
    BalanceWrite(first, b, y, now);
    BalanceWritesChain(rows, first, WithBalance(first, b, y, now), {a}, {b}, now);
    assert {a} + {b} == {a, b};
  }

  /** Two rounds of balance writes are balance writes to the ids of either round. */
  lemma BalanceWritesChain(a: map<int, Wallet>, b: map<int, Wallet>, c: map<int, Wallet>, s: set<int>, t: set<int>, now: int)
    requires BalanceWritesOnly(a, b, s, now) && BalanceWritesOnly(b, c, t, now)
    ensures BalanceWritesOnly(a, c, s + t, now)
  {
    forall id | id in a
      ensures c[id] == if id in s + t then a[id].(balance := c[id].balance, updatedAt := now) else a[id]
    {
      assert id in b;
    }
  }

  /** The balance column of a table of wallets, by wallet id. */
  function BalancesOf(rows: map<int, Wallet>): (b: map<int, int>)
    ensures b.Keys == rows.Keys
    ensures forall id :: id in rows ==> b[id] == rows[id].balance
  {
    map id | id in rows :: rows[id].balance
  }

  /** The wallets of user `u` among ids 1 .. n - 1, in id order. */
  function UserWallets(rows: map<int, Wallet>, u: int, n: int): seq<Wallet>
    decreases n
  {
    if n <= 1 then []
    else UserWallets(rows, u, n - 1) + (if n - 1 in rows && rows[n - 1].userId == u then [rows[n - 1]] else [])
  }

  class WalletStore {
    var rows: map<int, Wallet>
    var nextId: int

    ghost predicate Valid()
      reads this
    {
      && nextId >= 1
      && forall id :: id in rows ==> rows[id].id == id && 1 <= id < nextId
    }

    /** The balance column, by wallet id. */
    function Balances(): map<int, int>
      reads this
    {
      BalancesOf(rows)
    }

    constructor ()
      ensures Valid() && rows == map[] && nextId == 1
    {
      rows := map[];
      nextId := 1;
    }

    /**
     * `INSERT ... RETURNING id`: a fresh id, `created_at == updated_at == now`, and the
     * balance stored exactly as given; the three generated fields are written back into
     * the caller's record. A failed insert changes nothing.
     */
    method Create(w: Wallet, now: int, fail: bool) returns (r: Result<Wallet>)
      requires Valid()
      modifies this
      ensures Valid()
      ensures fail ==> r.Err? && unchanged(this)
      ensures !fail ==> && r == Ok(w.(id := old(nextId), createdAt := now, updatedAt := now))
                        && old(nextId) !in old(rows)
                        && rows == old(rows)[old(nextId) := r.value]
                        && nextId == old(nextId) + 1
    {
      if fail {
        return Err("failed to create wallet");
      }
      var row := w.(id := nextId, createdAt := now, updatedAt := now);
      rows := rows[nextId := row];
      nextId := nextId + 1;
      r := Ok(row);
    }

    /** The scan loop of `FindByUserID`: the user's rows in id order. */
    method CollectUserWallets(u: int) returns (found: seq<Wallet>)
      requires Valid()
      ensures found == UserWallets(rows, u, nextId)
    {
      // Ids are allocated from 1 upwards, so visiting 1 .. nextId - 1 visits every row.
      found := [];
      var id := 1;
      while id < nextId
        invariant 1 <= id <= nextId
        invariant found == UserWallets(rows, u, id)
      {
        if id in rows && rows[id].userId == u {
          found := found + [rows[id]];
        }
        id := id + 1;
      }
    }

    /** `FindByUserID`: each of the user's wallets once, newest first. */
    method FindByUserID(u: int) returns (r: seq<Wallet>)
      requires Valid()
      ensures forall w :: w in r <==> w.id in rows && rows[w.id] == w && w.userId == u
      ensures Distinct(r)
      ensures SortedBy(r, CreatedNewerFirst)
      ensures multiset(r) == multiset(UserWallets(rows, u, nextId))
    {
      var found := CollectUserWallets(u);
      UserWalletsMembers(rows, u, nextId);
      CreatedNewerFirstOrder();
      SortCorrect(found, CreatedNewerFirst);
      r := Sort(found, CreatedNewerFirst);
      DistinctPerm(found, r);
      forall w ensures w in r <==> w in found {
        assert w in r <==> w in multiset(r);
      }
    }

    /** `FindByID`: the row with that id, or an error when there is none. */
    method FindByID(id: int) returns (r: Result<Wallet>)
      ensures r.Ok? <==> id in rows
      ensures r.Ok? ==> r.value == rows[id]
    {
      if id in rows {
        r := Ok(rows[id]);
      } else {
        r := Err("wallet not found");
      }
    }

    /**
     * `Update`: name, currency, type, icon, color and `updated_at` of the row with the
     * record's id; the balance is not written. The new `updated_at` is written back.
     */
    method Update(w: Wallet, now: int, fail: bool) returns (r: Result<Wallet>)
      requires Valid()
      modifies this
      ensures Valid() && nextId == old(nextId)
      ensures Balances() == old(Balances())
      ensures fail ==> r.Err? && unchanged(this)
      ensures !fail ==> r == Ok(w.(updatedAt := now))
      ensures !fail ==> rows == if w.id in old(rows) then old(rows)[w.id := WithMetadata(old(rows)[w.id], w, now)] else old(rows)
    {
      if fail {
        return Err("failed to update wallet");
      }
      if w.id in rows {
        rows := rows[w.id := WithMetadata(rows[w.id], w, now)];
      }
      r := Ok(w.(updatedAt := now));
    }

    /** `UpdateBalance`: an absolute write of the balance (and `updated_at`) of one row. */
    method UpdateBalance(id: int, balance: int, now: int, fail: bool) returns (r: Outcome)
      requires Valid()
      modifies this
      ensures Valid() && nextId == old(nextId)
      ensures fail ==> r.Fail? && unchanged(this)
      ensures !fail ==> r == Pass
      ensures !fail ==> rows == WithBalance(old(rows), id, balance, now)
      ensures !fail ==> Balances() == if id in old(rows) then old(Balances())[id := balance] else old(Balances())
    {
      if fail {
        return Fail("failed to update wallet balance");
      }
      if id in rows {
        rows := rows[id := rows[id].(balance := balance, updatedAt := now)];
      }
      r := Pass;
    }

    /** `Delete`: removes the row with that id; a missing id is no error. */
    method Delete(id: int, fail: bool) returns (r: Outcome)
      requires Valid()
      modifies this
      ensures Valid() && nextId == old(nextId)
      ensures fail ==> r.Fail? && unchanged(this)
      ensures !fail ==> r == Pass && rows == old(rows) - {id}
      ensures !fail ==> Balances() == old(Balances()) - {id}
    {
      if fail {
        return Fail("failed to delete wallet");
      }
      rows := rows - {id};
      r := Pass;
    }
  }


  /** `UserWallets` lists each of the user's rows with an id below `n` once. */
  lemma {:induction false} UserWalletsMembers(rows: map<int, Wallet>, u: int, n: int)
    requires forall id :: id in rows ==> rows[id].id == id && 1 <= id
    ensures forall w :: w in UserWallets(rows, u, n) <==> w.id in rows && w.id < n && rows[w.id] == w && w.userId == u
    ensures forall j :: 0 <= j < |UserWallets(rows, u, n)| ==> UserWallets(rows, u, n)[j].id < n
    ensures Distinct(UserWallets(rows, u, n))
  {
    if n > 1 {
      UserWalletsMembers(rows, u, n - 1);
    }
  }
}
