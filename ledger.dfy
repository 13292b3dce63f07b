/**
 * The balance maintainer's arithmetic, stated on a table of balances (wallet id to
 * balance). `Post` is what a successful create writes (transaction_service.go:66-111),
 * `Unpost` what a delete writes (transaction_service.go:185-209), both as the same
 * absolute writes in the same order as the source. `Effect` is the signed-effect
 * table they implement, and `Consistent` the invariant it yields: every balance is
 * its opening balance plus the effects of the transactions on record.
 */
module Ledger {
  import opened Wrappers
  import opened Domain
  import opened Folds

  type Balances = map<int, int>

  /** The signed change that transaction `t` makes to the balance of wallet `k`. */
  function Effect(t: Transaction, k: int): int {
    match t.kind
    case Income => if k == t.walletId then t.amount else 0
    case Expense => if k == t.walletId then -t.amount else 0
    case Transfer =>
      (if k == t.walletId then -t.amount else 0) + (if t.toWalletId == Some(k) then t.amount else 0)
  }

  /** `Effect` on one wallet, as the term of a sum over transactions. */
  function EffectOn(k: int): Transaction -> int {
    (t: Transaction) => Effect(t, k)
  }

  /** The wallets whose balance the create path writes for `t` all exist. */
  predicate Postable(b: Balances, t: Transaction) {
    && t.walletId in b
    && (t.kind == Transfer ==> t.toWalletId.Some? && t.toWalletId.value in b)
  }

  /** The writes of a successful create: one absolute write, or two for a transfer. */
  function Post(b: Balances, t: Transaction): Balances
    requires Postable(b, t)
  {
    var w := t.walletId;
    match t.kind
    case Expense => b[w := b[w] - t.amount]
    case Income => b[w := b[w] + t.amount]
    case Transfer =>
      var d := t.toWalletId.value;
      b[w := b[w] - t.amount][d := b[d] + t.amount]
  }

  /**
   * The writes of a delete. A transfer is reversed only when its destination is named
   * and still found; otherwise neither wallet is touched.
   */
  function Unpost(b: Balances, t: Transaction): Balances
    requires t.walletId in b
  {
    var w := t.walletId;
    match t.kind
    case Expense => b[w := b[w] + t.amount]
    case Income => b[w := b[w] - t.amount]
    case Transfer =>
      if t.toWalletId.Some? && t.toWalletId.value in b then
        var d := t.toWalletId.value;
        b[w := b[w] + t.amount][d := b[d] - t.amount]
      else b
  }

  /** A create adds the signed effect to every balance and to nothing else. */
  lemma PostIsEffect(b: Balances, t: Transaction)
    requires Postable(b, t) && WellFormed(t)
    ensures Post(b, t).Keys == b.Keys
    ensures forall k :: k in b ==> Post(b, t)[k] == b[k] + Effect(t, k)
  {
  }

  /** A delete whose wallets are all found subtracts the signed effect from every balance. */
  lemma UnpostIsEffect(b: Balances, t: Transaction)
    requires Postable(b, t) && WellFormed(t)
    ensures Unpost(b, t).Keys == b.Keys
    ensures forall k :: k in b ==> Unpost(b, t)[k] == b[k] - Effect(t, k)
  {
  }

  /** Creating a transaction and then deleting it restores every balance. */
  lemma UnpostPost(b: Balances, t: Transaction)
    requires Postable(b, t)
    ensures Unpost(Post(b, t), t) == b
  {
    var w := t.walletId;
    if t.kind == Transfer {
      var d := t.toWalletId.value;
      var p := Post(b, t);
      assert d in p;
      forall k | k in b ensures Unpost(p, t)[k] == b[k] {
        if k == d {
        } else if k == w {
        }
      }
    }
  }

  /**
   * A transfer between two different wallets leaves the sum of their two balances
   * unchanged, and every other balance too.
   */
  lemma TransferKeepsPairSum(b: Balances, t: Transaction)
    requires Postable(b, t) && t.kind == Transfer && t.toWalletId.value != t.walletId
    ensures Post(b, t)[t.walletId] == b[t.walletId] - t.amount
    ensures Post(b, t)[t.toWalletId.value] == b[t.toWalletId.value] + t.amount
    ensures Post(b, t)[t.walletId] + Post(b, t)[t.toWalletId.value] == b[t.walletId] + b[t.toWalletId.value]
    ensures forall k :: k in b && k != t.walletId && k != t.toWalletId.value ==> Post(b, t)[k] == b[k]
  {
  }

  /**
   * The ledger invariant: every wallet is known to the opening table, its balance is
   * its opening balance plus the effects of the transactions on record, and every
   * transaction on record is well formed and names only wallets that exist.
   */
  ghost predicate Consistent(b: Balances, opening: Balances, log: seq<Transaction>) {
    && (forall k :: k in b ==> k in opening && b[k] == opening[k] + Sum(log, EffectOn(k)))
    && (forall i :: 0 <= i < |log| ==> WellFormed(log[i]) && Postable(b, log[i]))
  }

  /** Transaction `t` can move the balance of wallet `k`. */
  predicate Moves(t: Transaction, k: int) {
    k == t.walletId || (t.kind == Transfer && t.toWalletId == Some(k))
  }

  /** The total effect on a wallet that no transaction moves is zero. */
  lemma {:induction false} NoEffect(log: seq<Transaction>, k: int)
    requires forall i :: 0 <= i < |log| ==> !Moves(log[i], k)
    ensures Sum(log, EffectOn(k)) == 0
  {
    if log != [] {
      NoEffect(log[..|log| - 1], k);
    }
  }

  /** Posting a well-formed transaction and recording it keeps the ledger consistent. */
  lemma PostKeepsConsistent(b: Balances, opening: Balances, log: seq<Transaction>, t: Transaction)
    requires Consistent(b, opening, log) && WellFormed(t) && Postable(b, t)
    ensures Consistent(Post(b, t), opening, log + [t])
  {
    var p := Post(b, t);
    PostIsEffect(b, t);
    forall k | k in p ensures k in opening && p[k] == opening[k] + Sum(log + [t], EffectOn(k)) {
      SumAppend(log, [t], EffectOn(k));
      assert [t][..0] == [];
    }
    forall i | 0 <= i < |log + [t]| ensures WellFormed((log + [t])[i]) && Postable(p, (log + [t])[i]) {
      if i < |log| {
        assert (log + [t])[i] == log[i];
      }
    }
  }

  /** Reversing the transaction at `i` and dropping it from the record keeps the ledger consistent. */
  lemma UnpostKeepsConsistent(b: Balances, opening: Balances, log: seq<Transaction>, i: nat)
    requires Consistent(b, opening, log) && i < |log|
    ensures Consistent(Unpost(b, log[i]), opening, log[..i] + log[i + 1..])
  {
    var t := log[i];
    var rest := log[..i] + log[i + 1..];
    var u := Unpost(b, t);
    UnpostIsEffect(b, t);
    forall k | k in u ensures k in opening && u[k] == opening[k] + Sum(rest, EffectOn(k)) {
      SumSplit(log, i, EffectOn(k));
    }
    forall j | 0 <= j < |rest| ensures WellFormed(rest[j]) && Postable(u, rest[j]) {
      if j < i {
        assert rest[j] == log[j];
      } else {
        assert rest[j] == log[j + 1];
      }
    }
  }

  /** Opening a new wallet under an unused id keeps the ledger consistent. */
  lemma OpenKeepsConsistent(b: Balances, opening: Balances, log: seq<Transaction>, k: int, balance: int)
    requires Consistent(b, opening, log) && k !in b
    ensures Consistent(b[k := balance], opening[k := balance], log)
  {
    NoEffect(log, k);
  }

  /** Closing a wallet that no transaction names keeps the ledger consistent. */
  lemma CloseKeepsConsistent(b: Balances, opening: Balances, log: seq<Transaction>, k: int)
    requires Consistent(b, opening, log)
    requires forall i :: 0 <= i < |log| ==> log[i].walletId != k && log[i].toWalletId != Some(k)
    ensures Consistent(b - {k}, opening, log)
  {
  }
}
