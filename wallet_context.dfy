/**
 * The wallet list the frontend keeps (frontend/src/context/WalletContext.jsx): how the
 * list, the loading flag and the error change when the API answers a create, update or
 * delete, and the lookups and totals read from it. The API is a parameter.
 */
module WalletContext {
  import opened Wrappers
  import opened Text
  import opened Folds
  import opened FrontModel
  import opened Calculations

  /** What the wallet form sends: the trimmed name, the type, the balance, and the budget or `null`. */
  datatype WalletData = WalletData(name: string, kind: string, balance: Option<int>, budget: Option<int>)

  /** `wallets.find(wallet => wallet.id === parseInt(id))`: never found when `id` does not parse. */
  function GetWalletById(ws: seq<Wal>, id: string): (r: Option<Wal>)
    ensures ParseIntJs(id).None? ==> r.None?
    ensures r.Some? ==> r.value in ws && Some(r.value.id) == ParseIntJs(id)
    ensures r.None? <==> forall i :: 0 <= i < |ws| ==> Some(ws[i].id) != ParseIntJs(id)
  {
    var key := ParseIntJs(id);
    Find(ws, (w: Wal) => Some(w.id) == key)
  }

  /** A route or select value that spells a wallet's id finds that wallet, when ids are unique. */
  lemma WalletByIdRoundTrip(ws: seq<Wal>, k: nat)
    requires k < |ws|
    requires forall i, j :: 0 <= i < j < |ws| ==> ws[i].id != ws[j].id
    ensures GetWalletById(ws, IntToString(ws[k].id)) == Some(ws[k])
  {
    ParseIntRoundTrip(ws[k].id);
    var r := GetWalletById(ws, IntToString(ws[k].id));
    var i :| 0 <= i < |ws| && ws[i] == r.value && Some(ws[i].id) == Some(ws[k].id);
    assert i == k;
  }

  /**
   * `getTotalBalance`: `reduce((sum, w) => sum + w.balance, 0)` with no default, so one
   * missing balance makes the total `NaN` (None). When every balance is present it is
   * the total of `calculateTotalBalance`, which counts a missing balance as 0.
   */
  function GetTotalBalance(ws: seq<Wal>): (r: Option<int>)
    ensures r.Some? <==> forall i :: 0 <= i < |ws| ==> ws[i].balance.Some?
    ensures r.Some? ==> r.value == CalculateTotalBalance(ws)
  {
    if ws == [] then Some(0)
    else
      var acc := GetTotalBalance(ws[..|ws| - 1]);
      var w := ws[|ws| - 1];
      assert forall i :: 0 <= i < |ws| - 1 ==> ws[..|ws| - 1][i] == ws[i];
      if acc.Some? && w.balance.Some? then Some(acc.value + w.balance.value) else None
  }

  /**
   * `getTotalByType`: the balances of the wallets of type `k`, `NaN` (None) when one of
   * them has none; otherwise it is `calculateBalanceByType`.
   */
  function GetTotalByType(ws: seq<Wal>, k: string): (r: Option<int>)
    ensures r.Some? <==> forall i :: 0 <= i < |ws| && ws[i].kind == k ==> ws[i].balance.Some?
    ensures r.Some? ==> r.value == CalculateBalanceByType(ws, k)
  {
    var kept := Filter(ws, OfKind(k));
    forall i | 0 <= i < |ws| && ws[i].kind == k ensures ws[i] in kept {
      FilterIn(ws, OfKind(k), ws[i]);
    }
    forall i | 0 <= i < |kept| ensures kept[i] in ws && kept[i].kind == k {
      FilterIn(ws, OfKind(k), kept[i]);
    }
    GetTotalBalance(kept)
  }

  /** `prev.map(wallet => wallet.id === id ? updated : wallet)`. */
  function ReplaceWallet(ws: seq<Wal>, id: int, updated: Wal): (r: seq<Wal>)
    ensures |r| == |ws|
    ensures forall i :: 0 <= i < |ws| ==> r[i] == if ws[i].id == id then updated else ws[i]
  {
    seq(|ws|, i requires 0 <= i < |ws| => if ws[i].id == id then updated else ws[i])
  }

  /** `wallet.id !== id`. */
  function OtherWallet(id: int): Wal -> bool {
    (w: Wal) => w.id != id
  }

  /** An update leaves the other wallets as they were, in the same order. */
  lemma {:induction false} ReplaceKeepsOthers(ws: seq<Wal>, id: int, updated: Wal)
    requires updated.id == id
    ensures Filter(ReplaceWallet(ws, id, updated), OtherWallet(id)) == Filter(ws, OtherWallet(id))
  {
    if ws != [] {
      var ws' := ws[..|ws| - 1];
      ReplaceKeepsOthers(ws', id, updated);
      assert ReplaceWallet(ws, id, updated)[..|ws| - 1] == ReplaceWallet(ws', id, updated);
    }
  }

  /** When the server keeps the id, a lookup of an updated id finds the server's copy. */
  lemma ReplaceFound(ws: seq<Wal>, id: int, updated: Wal)
    requires updated.id == id
    requires exists i :: 0 <= i < |ws| && ws[i].id == id
    ensures Find(ReplaceWallet(ws, id, updated), (w: Wal) => w.id == id) == Some(updated)
  {
    var r := ReplaceWallet(ws, id, updated);
    var i :| 0 <= i < |ws| && ws[i].id == id;
    assert r[i].id == id;
    var f := Find(r, (w: Wal) => w.id == id);
    var j :| 0 <= j < |r| && r[j] == f.value && f.value.id == id;
    assert r[j] == updated;
  }

  /** After a delete a wallet remains exactly when it was there with another id. */
  lemma DeleteWalletExactly(ws: seq<Wal>, id: int, w: Wal)
    ensures w in Filter(ws, OtherWallet(id)) <==> w in ws && w.id != id
  {
    FilterIn(ws, OtherWallet(id), w);
  }

  /** The state of the wallet provider. */
  class WalletProvider {
    var wallets: seq<Wal>
    var loading: bool
    var error: Option<string>

    constructor ()
      ensures wallets == [] && !loading && error == None
    {
      wallets := [];
      loading := false;
      error := None;
    }

    /** `loadWallets`: a successful reply replaces the list (`data || []`). */
    method LoadWallets(reply: Reply<Option<seq<Wal>>>)
      modifies this
      ensures !loading
      ensures reply.Success? ==> wallets == (if reply.data.Some? then reply.data.value else []) && error == None
      ensures reply.Refused? ==> wallets == old(wallets) && error == None
      ensures reply.Thrown? ==> wallets == old(wallets) && error == Some(ThrownMessage(reply.body, "Failed to load wallets"))
    {
      loading := true;
      error := None;
      match reply {
        case Success(data) =>
          wallets := if data.Some? then data.value else [];
        case Refused(_) =>
        case Thrown(body) =>
          error := Some(ThrownMessage(body, "Failed to load wallets"));
      }
      loading := false;
    }

    /**
     * `addWallet`: without a signed-in user nothing happens and nothing is returned;
     * otherwise a created wallet is appended at the end.
     */
    method AddWallet(signedIn: bool, data: WalletData, send: WalletData -> Reply<Wal>) returns (r: Option<ActionResult<Wal>>)
      modifies this
      ensures !signedIn ==> r.None? && unchanged(this)
      ensures signedIn ==> r.Some? && !loading
      ensures signedIn && send(data).Success? ==>
                wallets == old(wallets) + [send(data).data] && error == None && r == Some(Done(Some(send(data).data)))
      ensures signedIn && send(data).Refused? ==>
                wallets == old(wallets) && error == None && r == Some(Failed(send(data).error))
      ensures signedIn && send(data).Thrown? ==> var m := ThrownMessage(send(data).body, "Failed to create wallet");
                wallets == old(wallets) && error == Some(m) && r == Some(Failed(m))
    {
      if !signedIn {
        return None;
      }
      loading := true;
      error := None;
      var reply := send(data);
      match reply {
        case Success(w) =>
          wallets := wallets + [w];
          r := Some(Done(Some(w)));
        case Refused(e) =>
          r := Some(Failed(e));
        case Thrown(body) =>
          var message := ThrownMessage(body, "Failed to create wallet");
          error := Some(message);
          r := Some(Failed(message));
      }
      loading := false;
    }

    /** `updateWallet`: on success every wallet with that id is replaced by the server's copy. */
    method UpdateWallet(id: int, data: WalletData, send: (int, WalletData) -> Reply<Wal>) returns (r: ActionResult<Wal>)
      modifies this
      ensures !loading
      ensures send(id, data).Success? ==>
                wallets == ReplaceWallet(old(wallets), id, send(id, data).data) && error == None && r == Done(None)
      ensures send(id, data).Refused? ==> wallets == old(wallets) && error == None && r == Failed(send(id, data).error)
      ensures send(id, data).Thrown? ==> var m := ThrownMessage(send(id, data).body, "Failed to update wallet");
                wallets == old(wallets) && error == Some(m) && r == Failed(m)
    {
      loading := true;
      error := None;
      var reply := send(id, data);
      match reply {
        case Success(w) =>
          wallets := ReplaceWallet(wallets, id, w);
          r := Done(None);
        case Refused(e) =>
          r := Failed(e);
        case Thrown(body) =>
          var message := ThrownMessage(body, "Failed to update wallet");
          error := Some(message);
          r := Failed(message);
      }
      loading := false;
    }

    /** `deleteWallet`: on success every wallet with that id is dropped and the rest keep their order. */
    method DeleteWallet(id: int, reply: Reply<()>) returns (r: ActionResult<Wal>)
      modifies this
      ensures !loading
      ensures reply.Success? ==> wallets == Filter(old(wallets), OtherWallet(id)) && error == None && r == Done(None)
      ensures reply.Refused? ==> wallets == old(wallets) && error == None && r == Failed(reply.error)
      ensures reply.Thrown? ==> var m := ThrownMessage(reply.body, "Failed to delete wallet");
                wallets == old(wallets) && error == Some(m) && r == Failed(m)
    {
      loading := true;
      error := None;
      match reply {
        case Success(_) =>
          wallets := Filter(wallets, OtherWallet(id));
          r := Done(None);
        case Refused(e) =>
          r := Failed(e);
        case Thrown(body) =>
          var message := ThrownMessage(body, "Failed to delete wallet");
          error := Some(message);
          r := Failed(message);
      }
      loading := false;
    }
  }
}
