/**
 * The backend's records: wallets, transactions, users and the per-type totals
 * (backend/internal/domain). Amounts and balances are whole rupiah; times are
 * milliseconds.
 */
module Domain {
  import opened Wrappers

  /** The three transaction types; the wire form is the lower-case name. */
  datatype TxType = Income | Expense | Transfer

  function TypeName(k: TxType): string {
    match k
    case Income => "income"
    case Expense => "expense"
    case Transfer => "transfer"
  }

  /** Reading a type from its wire form: any other string is no type at all. */
  function ParseTxType(s: string): (r: Option<TxType>)
    ensures r.Some? ==> TypeName(r.value) == s
  {
    if s == "income" then Some(Income)
    else if s == "expense" then Some(Expense)
    else if s == "transfer" then Some(Transfer)
    else None
  }

  /** A type is exactly one of the three names, and each name reads back as its type. */
  lemma ParseTypeName(s: string, k: TxType)
    ensures ParseTxType(s) == Some(k) <==> s == TypeName(k)
  {
  }

  datatype Transaction = Transaction(
    id: int,
    userId: int,
    walletId: int,            // the source wallet of a transfer, or the single wallet
    kind: TxType,
    amount: int,
    category: string,
    description: string,
    date: int,
    toWalletId: Option<int>,  // the destination of a transfer
    createdAt: int,
    updatedAt: int)

  /**
   * What the create path guarantees of every transaction it posts: a positive amount,
   * and a transfer names a destination other than its source.
   */
  predicate WellFormed(t: Transaction) {
    && t.amount > 0
    && (t.kind == Transfer ==> t.toWalletId.Some? && t.toWalletId.value != t.walletId)
  }

  /** The amount of `t`: the term of a sum over transactions. */
  function Amount(t: Transaction): int {
    t.amount
  }

  /** The amount of `t` if it has type `k`, else 0: the term of a per-type sum. */
  function AmountOfType(k: TxType): Transaction -> int {
    (t: Transaction) => if t.kind == k then t.amount else 0
  }

  /** The three per-type totals of a user's transactions. */
  datatype TransactionStats = TransactionStats(totalIncome: int, totalExpense: int, totalTransfer: int)

  datatype Wallet = Wallet(
    id: int,
    userId: int,              // every wallet belongs to exactly one user
    name: string,
    balance: int,             // signed: nothing forbids a negative balance
    currency: string,
    walletType: string,
    icon: string,
    color: string,
    createdAt: int,
    updatedAt: int)

  /** The balance of `w`: the term of a sum over wallets. */
  function WalletBalance(w: Wallet): int {
    w.balance
  }

  datatype User = User(id: int, username: string, password: string, createdAt: int, updatedAt: int)
}
