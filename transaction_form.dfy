/**
 * The add-transaction form (frontend/src/features/transactions/TransactionFormModal.jsx):
 * the checks of `validate`, which fill an error dictionary by assignments that later
 * checks may overwrite, and the payload `handleSubmit` hands to the transaction context.
 */
module TransactionForm {
  import opened Wrappers
  import opened Text
  import opened FrontModel
  import opened TransactionContext
  import opened WalletContext

  /** The active tab of the form. */
  datatype Tab = IncomeTab | ExpenseTab | TransferTab

  /** The keys of the error object: the names of the fields a message can be attached to. */
  datatype Field = FromWalletIdKey | ToWalletIdKey | WalletIdKey | AmountKey | DateKey

  /** The form fields: select-box strings, the amount from the currency input, and text fields. */
  datatype TxForm = TxForm(
    walletId: string,
    fromWalletId: string,
    toWalletId: string,
    amount: FormValue,
    date: string,
    category: string,
    description: string)

  const NoSource := "Dompet sumber harus dipilih"
  const NoDestination := "Dompet tujuan harus dipilih"
  const SameWallets := "Dompet tujuan harus berbeda dengan dompet sumber"
  const Insufficient := "Saldo dompet tidak mencukupi"
  const NoWallet := "Dompet harus dipilih"
  const BadAmount := "Jumlah harus diisi dan lebih dari 0"
  const NoDate := "Tanggal harus diisi"

  /**
   * `wallet && parseFloat(amount) > wallet.balance` for the wallet selected as `id`: a
   * comparison with `NaN` (no amount, no balance) is false, so only a known balance
   * below a known amount counts.
   */
  predicate ExceedsBalance(ws: seq<Wal>, id: string, amount: FormValue) {
    var w := GetWalletById(ws, id);
    w.Some? && w.value.balance.Some? && FormNumber(amount).Some? && FormNumber(amount).value > w.value.balance.value
  }

  /** The amount is missing, zero or negative: `!amount || parseFloat(amount) <= 0`. */
  predicate AmountMissing(amount: FormValue) {
    !FormTruthy(amount) || FormNumber(amount).value <= 0
  }

  /** The balance check applies: the source of a transfer, the wallet of an expense; never an income. */
  predicate Overdrawn(tab: Tab, f: TxForm, ws: seq<Wal>) {
    || (tab == TransferTab && f.fromWalletId != "" && ExceedsBalance(ws, f.fromWalletId, f.amount))
    || (tab == ExpenseTab && f.walletId != "" && ExceedsBalance(ws, f.walletId, f.amount))
  }

  /**
   * The message each field ends up with, with the order of the checks resolved: "must
   * differ" wins over "choose a destination", and a missing amount wins over an
   * insufficient balance.
   */
  function FieldError(tab: Tab, f: TxForm, ws: seq<Wal>, field: Field): Option<string> {
    match field
    case FromWalletIdKey =>
      if tab == TransferTab && f.fromWalletId == "" then Some(NoSource) else None
    case ToWalletIdKey =>
      if tab != TransferTab then None
      else if f.fromWalletId == f.toWalletId then Some(SameWallets)
      else if f.toWalletId == "" then Some(NoDestination)
      else None
    case WalletIdKey =>
      if tab != TransferTab && f.walletId == "" then Some(NoWallet) else None
    case AmountKey =>
      if AmountMissing(f.amount) then Some(BadAmount)
      else if Overdrawn(tab, f, ws) then Some(Insufficient)
      else None
    case DateKey =>
      if f.date == "" then Some(NoDate) else None
  }

  /** The dictionary agrees with the resolved message of one field: present exactly when it has one, holding it. */
  ghost predicate FieldAgrees(tab: Tab, f: TxForm, ws: seq<Wal>, errors: map<Field, string>, field: Field) {
    && (field in errors <==> FieldError(tab, f, ws, field).Some?)
    && (field in errors ==> errors[field] == FieldError(tab, f, ws, field).value)
  }

  /** The dictionary `validate` returns is exactly the fields with a message, with that message. */
  ghost predicate ErrorsOf(tab: Tab, f: TxForm, ws: seq<Wal>, errors: map<Field, string>) {
    && FieldAgrees(tab, f, ws, errors, FromWalletIdKey)
    && FieldAgrees(tab, f, ws, errors, ToWalletIdKey)
    && FieldAgrees(tab, f, ws, errors, WalletIdKey)
    && FieldAgrees(tab, f, ws, errors, AmountKey)
    && FieldAgrees(tab, f, ws, errors, DateKey)
  }

  /**
   * `validate`: the checks in source order, each assignment overwriting an earlier one
   * for the same field: first the wallet checks of the tab, then the amount and the date.
   */
  method Validate(tab: Tab, f: TxForm, ws: seq<Wal>) returns (errors: map<Field, string>)
    ensures ErrorsOf(tab, f, ws, errors)
  {
    errors := WalletChecks(tab, f, ws);
    if !FormTruthy(f.amount) || FormNumber(f.amount).value <= 0 {
      errors := errors[AmountKey := BadAmount];
    }
    if f.date == "" {
      errors := errors[DateKey := NoDate];
    }
  }

  /**
   * The wallet checks of `validate`: the wallet fields get their final messages, and the
   * amount is flagged exactly when the selected wallet's balance is overdrawn.
   */
  method WalletChecks(tab: Tab, f: TxForm, ws: seq<Wal>) returns (errors: map<Field, string>)
    ensures DateKey !in errors
    ensures FieldAgrees(tab, f, ws, errors, FromWalletIdKey) && FieldAgrees(tab, f, ws, errors, ToWalletIdKey)
    ensures FieldAgrees(tab, f, ws, errors, WalletIdKey)
    ensures AmountKey in errors <==> Overdrawn(tab, f, ws)
    ensures AmountKey in errors ==> errors[AmountKey] == Insufficient
  {
    errors := map[];
    if tab == TransferTab {
      if f.fromWalletId == "" {
        errors := errors[FromWalletIdKey := NoSource];
      }
      if f.toWalletId == "" {
        errors := errors[ToWalletIdKey := NoDestination];
      }
      if f.fromWalletId == f.toWalletId {
        errors := errors[ToWalletIdKey := SameWallets];
      }
      if f.fromWalletId != "" {
        var wallet := GetWalletById(ws, f.fromWalletId);
        var amount := FormNumber(f.amount);
        if wallet.Some? && wallet.value.balance.Some? && amount.Some? && amount.value > wallet.value.balance.value {
          errors := errors[AmountKey := Insufficient];
        }
      }
    } else {
      if f.walletId == "" {
        errors := errors[WalletIdKey := NoWallet];
      }
      if tab == ExpenseTab && f.walletId != "" {
        var wallet := GetWalletById(ws, f.walletId);
        var amount := FormNumber(f.amount);
        if wallet.Some? && wallet.value.balance.Some? && amount.Some? && amount.value > wallet.value.balance.value {
          errors := errors[AmountKey := Insufficient];
        }
      }
    }
  }

  /** What a form without errors guarantees. */
  predicate Ready(tab: Tab, f: TxForm, ws: seq<Wal>) {
    && FormNumber(f.amount).Some? && FormNumber(f.amount).value > 0
    && f.date != ""
    && !Overdrawn(tab, f, ws)
    && (tab == TransferTab ==> f.fromWalletId != "" && f.toWalletId != "" && f.fromWalletId != f.toWalletId)
    && (tab != TransferTab ==> f.walletId != "")
  }

  /**
   * The form passes validation exactly when it is ready: a positive amount within the
   * selected wallet's balance, a date, and a wallet (for a transfer, two different ones).
   */
  lemma NoErrorsIffReady(tab: Tab, f: TxForm, ws: seq<Wal>, errors: map<Field, string>)
    requires ErrorsOf(tab, f, ws, errors)
    ensures errors == map[] <==> Ready(tab, f, ws)
  {
    if errors == map[] {
      assert FieldError(tab, f, ws, AmountKey).None?;
      assert FieldError(tab, f, ws, DateKey).None?;
      assert FieldError(tab, f, ws, FromWalletIdKey).None?;
      assert FieldError(tab, f, ws, ToWalletIdKey).None?;
      assert FieldError(tab, f, ws, WalletIdKey).None?;
    }
    if Ready(tab, f, ws) {
      forall field ensures field !in errors {
        assert FieldAgrees(tab, f, ws, errors, field);
      }
      assert errors.Keys == {};
    }
  }

  /** An amount equal to the selected wallet's balance is accepted; one above it is refused unless the amount is missing. */
  lemma BalanceBoundary(tab: Tab, f: TxForm, ws: seq<Wal>)
    requires tab == ExpenseTab && f.walletId != ""
    requires !AmountMissing(f.amount)
    requires GetWalletById(ws, f.walletId).Some? && GetWalletById(ws, f.walletId).value.balance.Some?
    ensures FormNumber(f.amount).value == GetWalletById(ws, f.walletId).value.balance.value ==>
              FieldError(tab, f, ws, AmountKey).None?
    ensures FormNumber(f.amount).value > GetWalletById(ws, f.walletId).value.balance.value ==>
              FieldError(tab, f, ws, AmountKey) == Some(Insufficient)
  {
  }

  /** An income is never checked against a balance: its amount error, if any, is the missing-amount one. */
  lemma IncomeNotBalanceChecked(f: TxForm, ws: seq<Wal>)
    ensures FieldError(IncomeTab, f, ws, AmountKey).Some? <==> AmountMissing(f.amount)
    ensures FieldError(IncomeTab, f, ws, AmountKey).Some? ==> FieldError(IncomeTab, f, ws, AmountKey) == Some(BadAmount)
  {
  }

  /** `transactionData` plus the wallet fields of the tab: the amount parsed, category and description trimmed. */
  function PayloadOf(tab: Tab, f: TxForm): (p: Payload)
    ensures p.amount == FormNumber(f.amount) && p.date == f.date
    ensures p.category == TrimJs(f.category) && p.description == TrimJs(f.description)
    ensures tab == TransferTab ==> p.fromWalletId == f.fromWalletId && p.toWalletId == f.toWalletId && p.walletId == ""
    ensures tab != TransferTab ==> p.walletId == f.walletId && p.fromWalletId == "" && p.toWalletId == ""
  {
    var wallet := if tab == TransferTab then "" else f.walletId;
    var from := if tab == TransferTab then f.fromWalletId else "";
    var to := if tab == TransferTab then f.toWalletId else "";
    Payload(FormNumber(f.amount), f.date, TrimJs(f.category), TrimJs(f.description), wallet, from, to)
  }

  /** What `handleSubmit` does: show the errors, or hand the payload to the action of the tab. */
  datatype Submission = ShowErrors(errors: map<Field, string>) | Submit(tab: Tab, payload: Payload)

  /** `handleSubmit`: submits exactly when `validate` found nothing. */
  method HandleSubmit(tab: Tab, f: TxForm, ws: seq<Wal>) returns (s: Submission)
    ensures s.Submit? <==> Ready(tab, f, ws)
    ensures s.ShowErrors? ==> ErrorsOf(tab, f, ws, s.errors) && s.errors != map[]
    ensures s.Submit? ==> s == Submit(tab, PayloadOf(tab, f))
  {
    var errors := Validate(tab, f, ws);
    NoErrorsIffReady(tab, f, ws, errors);
    if |errors| > 0 {
      return ShowErrors(errors);
    }
    s := Submit(tab, PayloadOf(tab, f));
  }

  /**
   * A submitted transfer between two wallets chosen in the select boxes (whose values
   * spell wallet ids) reaches the server as a positive amount from one wallet to a
   * different one.
   */
  lemma SubmittedTransfer(f: TxForm, ws: seq<Wal>, from: int, to: int, now: string)
    requires Ready(TransferTab, f, ws)
    requires f.fromWalletId == IntToString(from) && f.toWalletId == IntToString(to)
    ensures var r := TransferRequest(PayloadOf(TransferTab, f), now);
            && r.walletId == Some(from) && r.toWalletId == Some(to) && from != to
            && r.amount.Some? && r.amount.value > 0 && r.date == f.date
  {
    ParseIntRoundTrip(from);
    ParseIntRoundTrip(to);
  }
}
