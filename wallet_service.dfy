/**
 * The wallet rules (backend/internal/service/wallet_service.go): creation with a
 * required name and a default currency, lookup restricted to the owner, a field-wise
 * update that leaves the balance alone, deletion refused while a transaction names the
 * wallet, and the total balance of a user.
 */
module WalletService {
  import opened Wrappers
  import opened Domain
  import opened Folds
  import opened Ledger
  import opened TransactionRepository
  import opened WalletRepository

  datatype CreateWalletRequest = CreateWalletRequest(
    name: string, balance: int, currency: string, walletType: string, icon: string, color: string)

  /** There is no balance field: an update cannot change the balance. */
  datatype UpdateWalletRequest = UpdateWalletRequest(
    name: string, currency: string, walletType: string, icon: string, color: string)

  /** The currency a new wallet gets: the requested one, or "IDR" when none is given. */
  function CurrencyOrDefault(c: string): (r: string)
    ensures r != ""
    ensures c != "" ==> r == c
  {
    if c == "" then "IDR" else c
  }

  /** The fields of `UpdateWallet`: each non-empty request value overwrites the stored one. */
  function Merge(w: Wallet, req: UpdateWalletRequest): (m: Wallet)
    ensures m.id == w.id && m.userId == w.userId && m.balance == w.balance
    ensures m.createdAt == w.createdAt && m.updatedAt == w.updatedAt
  {
    w.(name := if req.name != "" then req.name else w.name,
       currency := if req.currency != "" then req.currency else w.currency,
       walletType := if req.walletType != "" then req.walletType else w.walletType,
       icon := if req.icon != "" then req.icon else w.icon,
       color := if req.color != "" then req.color else w.color)
  }

  /** An update with every field empty changes nothing, and applying the same update twice is applying it once. */
  lemma MergeLaws(w: Wallet, req: UpdateWalletRequest)
    ensures Merge(w, UpdateWalletRequest("", "", "", "", "")) == w
    ensures Merge(Merge(w, req), req) == Merge(w, req)
  {
  }

  /** A non-empty request value is what the field holds afterwards; an empty one keeps the old value. */
  lemma MergeFields(w: Wallet, req: UpdateWalletRequest)
    ensures Merge(w, req).name == (if req.name == "" then w.name else req.name)
    ensures Merge(w, req).currency == (if req.currency == "" then w.currency else req.currency)
    ensures Merge(w, req).walletType == (if req.walletType == "" then w.walletType else req.walletType)
    ensures Merge(w, req).icon == (if req.icon == "" then w.icon else req.icon)
    ensures Merge(w, req).color == (if req.color == "" then w.color else req.color)
  {
  }

  class WalletService {
    const wallets: WalletStore
    const txs: TransactionStore

    constructor (wallets: WalletStore, txs: TransactionStore)
      ensures this.wallets == wallets && this.txs == txs
    {
      this.wallets := wallets;
      this.txs := txs;
    }

    /** `GetWalletByID`: the wallet, only for its owner. */
    function GetWalletByID(walletId: int, u: int): (r: Result<Wallet>)
      reads wallets
      ensures r.Ok? <==> walletId in wallets.rows && wallets.rows[walletId].userId == u
      ensures r.Ok? ==> r.value == wallets.rows[walletId]
      ensures walletId !in wallets.rows ==> r == Err("wallet not found")
      ensures walletId in wallets.rows && wallets.rows[walletId].userId != u ==> r == Err("unauthorized access to wallet")
    {
      if walletId !in wallets.rows then Err("wallet not found")
      else if wallets.rows[walletId].userId != u then Err("unauthorized access to wallet")
      else Ok(wallets.rows[walletId])
    }

    /**
     * `CreateWallet`: refused without a name; otherwise the wallet is stored with its
     * balance exactly as requested (no sign check) and the currency defaulted. A new
     * wallet keeps the ledger invariant, with its balance as its opening balance.
     */
    method CreateWallet(u: int, req: CreateWalletRequest, now: int, fail: bool, ghost opening: map<int, int>)
      returns (r: Result<Wallet>)
      requires wallets.Valid()
      modifies wallets
      ensures wallets.Valid()
      ensures req.name == "" ==> r == Err("wallet name is required") && unchanged(wallets)
      ensures req.name != "" && fail ==> r.Err? && unchanged(wallets)
      ensures req.name != "" && !fail ==>
                && r == Ok(Wallet(old(wallets.nextId), u, req.name, req.balance, CurrencyOrDefault(req.currency),
                                  req.walletType, req.icon, req.color, now, now))
                && r.value.id !in old(wallets.rows)
                && wallets.rows == old(wallets.rows)[r.value.id := r.value]
      ensures r.Ok? && Consistent(old(wallets.Balances()), opening, txs.rows) ==>
                Consistent(wallets.Balances(), opening[r.value.id := req.balance], txs.rows)
    {
      if req.name == "" {
        return Err("wallet name is required");
      }
      var currency := req.currency;
      if currency == "" {
        currency := "IDR";
      }
      var w := Wallet(0, u, req.name, req.balance, currency, req.walletType, req.icon, req.color, 0, 0);
      ghost var b := wallets.Balances();
      r := wallets.Create(w, now, fail);
      if r.Ok? {
        assert wallets.Balances() == b[r.value.id := req.balance];
        if Consistent(b, opening, txs.rows) {
          OpenKeepsConsistent(b, opening, txs.rows, r.value.id, req.balance);
        }
      }
    }

    /**
     * `UpdateWallet`: for the owner, the non-empty request fields overwrite the stored
     * ones; the balance is never written.
     */
    method UpdateWallet(walletId: int, u: int, req: UpdateWalletRequest, now: int, fail: bool)
      returns (r: Result<Wallet>)
      requires wallets.Valid()
      modifies wallets
      ensures wallets.Valid() && wallets.Balances() == old(wallets.Balances())
      ensures old(GetWalletByID(walletId, u)).Err? ==> r == old(GetWalletByID(walletId, u)) && unchanged(wallets)
      ensures old(GetWalletByID(walletId, u)).Ok? && fail ==> r.Err? && unchanged(wallets)
      ensures old(GetWalletByID(walletId, u)).Ok? && !fail ==>
                var m := Merge(old(wallets.rows[walletId]), req);
                && r == Ok(m.(updatedAt := now))
                && wallets.rows == old(wallets.rows)[walletId := m.(updatedAt := now)]
    {
      var found := GetWalletByID(walletId, u);
      if found.Err? {
        return found;
      }
      var w := found.value;
      if req.name != "" {
        w := w.(name := req.name);
      }
      if req.currency != "" {
        w := w.(currency := req.currency);
      }
      if req.walletType != "" {
        w := w.(walletType := req.walletType);
      }
      if req.icon != "" {
        w := w.(icon := req.icon);
      }
      if req.color != "" {
        w := w.(color := req.color);
      }
      assert w == Merge(found.value, req);
      r := wallets.Update(w, now, fail);
    }

    /**
     * `DeleteWallet`: for the owner, refused while a transaction names the wallet as
     * source or destination. When the lookup of those transactions itself fails, the
     * deletion goes ahead. A deletion after a lookup that succeeded keeps the ledger
     * invariant.
     */
    method DeleteWallet(walletId: int, u: int, lookupFails: bool, deleteFails: bool, ghost opening: map<int, int>)
      returns (r: Outcome)
      requires wallets.Valid()
      modifies wallets
      ensures wallets.Valid()
      ensures old(GetWalletByID(walletId, u)).Err? ==>
                r == Fail(old(GetWalletByID(walletId, u)).msg) && unchanged(wallets)
      ensures old(GetWalletByID(walletId, u)).Ok? && !lookupFails && Filter(txs.rows, OfWallet(walletId)) != [] ==>
                r == Fail("cannot delete wallet with existing transactions") && unchanged(wallets)
      ensures old(GetWalletByID(walletId, u)).Ok? && (lookupFails || Filter(txs.rows, OfWallet(walletId)) == []) ==>
                && (deleteFails ==> r.Fail? && unchanged(wallets))
                && (!deleteFails ==> r == Pass && wallets.rows == old(wallets.rows) - {walletId})
      ensures r == Pass && !lookupFails && Consistent(old(wallets.Balances()), opening, txs.rows) ==>
                Consistent(wallets.Balances(), opening, txs.rows)
    {
      var found := GetWalletByID(walletId, u);
      if found.Err? {
        return Fail(found.msg);
      }
      ghost var b := wallets.Balances();
      var refs := txs.FindByWalletID(found.value.id);
      assert |refs| == |Filter(txs.rows, OfWallet(walletId))| by {
        assert |refs| == |multiset(refs)|;
      }
      if !lookupFails && |refs| > 0 {
        return Fail("cannot delete wallet with existing transactions");
      }
      r := wallets.Delete(walletId, deleteFails);
      if r == Pass && !lookupFails {
        forall i | 0 <= i < |txs.rows|
          ensures txs.rows[i].walletId != walletId && txs.rows[i].toWalletId != Some(walletId)
        {
          FilterIn(txs.rows, OfWallet(walletId), txs.rows[i]);
        }
        assert wallets.Balances() == b - {walletId};
        if Consistent(b, opening, txs.rows) {
          CloseKeepsConsistent(b, opening, txs.rows, walletId);
        }
      }
    }

    /** `GetTotalBalance`: the sum of the balances of all the user's wallets. */
    method GetTotalBalance(u: int) returns (total: int)
      requires wallets.Valid()
      ensures total == Sum(UserWallets(wallets.rows, u, wallets.nextId), WalletBalance)
    {
      var ws := wallets.FindByUserID(u);
      total := 0;
      var i := 0;
      while i < |ws|
        invariant 0 <= i <= |ws|
        invariant total == Sum(ws[..i], WalletBalance)
      {
        SumStep(ws, i, WalletBalance);
        total := total + ws[i].balance;
        i := i + 1;
      }
      assert ws[..i] == ws;
      SumPerm(ws, UserWallets(wallets.rows, u, wallets.nextId), WalletBalance);
    }
  }
}
