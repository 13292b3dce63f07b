/**
 * The wallet form (frontend/src/features/wallets/WalletFormModal.jsx): the initial field
 * values, the checks of `validate`, the `walletData` sent, and the choice between
 * updating the wallet being edited and adding a new one.
 */
module WalletForm {
  import opened Wrappers
  import opened Text
  import opened FrontModel
  import opened WalletContext

  /** The form fields; `kind` is the selected type, "" when none is chosen. */
  datatype WalletFields = WalletFields(name: string, kind: string, balance: FormValue, budget: FormValue)

  /** The keys of the error object: the names of the fields a message can be attached to. */
  datatype WalletField = NameKey | TypeKey | BalanceKey | BudgetKey

  const NoName := "Nama dompet harus diisi"
  const NoType := "Tipe dompet harus dipilih"
  const BadBalance := "Saldo awal harus diisi dan tidak boleh negatif"
  const NegativeBudget := "Budget tidak boleh negatif"

  /**
   * The fields when the form opens: empty for a new wallet; for an edit, the wallet's
   * name and type, its balance as a string, and its budget as a string when it is truthy.
   * `toString` of a missing balance throws, so an edited wallet must have one.
   */
  function InitialFields(wallet: Option<Wal>): (f: WalletFields)
    requires wallet.Some? ==> wallet.value.balance.Some?
    ensures wallet.None? ==> f == WalletFields("", "", Blank, Blank)
    ensures wallet.Some? ==> f.balance == Str(wallet.value.balance.value)
    ensures wallet.Some? ==> (f.budget == Blank <==> !Truthy(wallet.value.budget))
  {
    if wallet.None? then WalletFields("", "", Blank, Blank)
    else
      var w := wallet.value;
      WalletFields(w.name, w.kind, Str(w.balance.value), if Truthy(w.budget) then Str(w.budget.value) else Blank)
  }

  /** The message each field ends up with. */
  function WalletFieldError(f: WalletFields, field: WalletField): Option<string> {
    match field
    case NameKey => if TrimJs(f.name) == "" then Some(NoName) else None
    case TypeKey => if f.kind == "" then Some(NoType) else None
    case BalanceKey =>
      if !FormTruthy(f.balance) || FormNumber(f.balance).value < 0 then Some(BadBalance) else None
    case BudgetKey =>
      if FormTruthy(f.budget) && FormNumber(f.budget).value < 0 then Some(NegativeBudget) else None
  }

  /** The dictionary agrees with the message of one field: present exactly when it has one, holding it. */
  ghost predicate WalletFieldAgrees(f: WalletFields, errors: map<WalletField, string>, field: WalletField) {
    && (field in errors <==> WalletFieldError(f, field).Some?)
    && (field in errors ==> errors[field] == WalletFieldError(f, field).value)
  }

  /** The dictionary `validate` returns is exactly the fields with a message, with that message. */
  ghost predicate WalletErrorsOf(f: WalletFields, errors: map<WalletField, string>) {
    && WalletFieldAgrees(f, errors, NameKey)
    && WalletFieldAgrees(f, errors, TypeKey)
    && WalletFieldAgrees(f, errors, BalanceKey)
    && WalletFieldAgrees(f, errors, BudgetKey)
  }

  /** `validate`: one check per field, in source order. */
  method Validate(f: WalletFields) returns (errors: map<WalletField, string>)
    ensures WalletErrorsOf(f, errors)
  {
    errors := map[];
    if TrimJs(f.name) == "" {
      errors := errors[NameKey := NoName];
    }
    if f.kind == "" {
      errors := errors[TypeKey := NoType];
    }
    if !FormTruthy(f.balance) || FormNumber(f.balance).value < 0 {
      errors := errors[BalanceKey := BadBalance];
    }
    if FormTruthy(f.budget) && FormNumber(f.budget).value < 0 {
      errors := errors[BudgetKey := NegativeBudget];
    }
  }

  /** What a wallet form without errors guarantees. */
  predicate WalletReady(f: WalletFields) {
    && TrimJs(f.name) != ""
    && f.kind != ""
    && FormTruthy(f.balance) && FormNumber(f.balance).value >= 0
    && (FormTruthy(f.budget) ==> FormNumber(f.budget).value >= 0)
  }

  /** The form passes validation exactly when it is ready. */
  lemma WalletNoErrorsIffReady(f: WalletFields, errors: map<WalletField, string>)
    requires WalletErrorsOf(f, errors)
    ensures errors == map[] <==> WalletReady(f)
  {
    if errors == map[] {
      assert WalletFieldError(f, NameKey).None?;
      assert WalletFieldError(f, TypeKey).None?;
      assert WalletFieldError(f, BalanceKey).None?;
      assert WalletFieldError(f, BudgetKey).None?;
    }
    if WalletReady(f) {
      forall field ensures field !in errors {
        assert WalletFieldAgrees(f, errors, field);
      }
      assert errors.Keys == {};
    }
  }

  /** `walletData`: the trimmed name, the type, the parsed balance, and the budget or `null` when left empty. */
  function WalletDataOf(f: WalletFields): (d: WalletData)
    ensures d.name == TrimJs(f.name) && d.kind == f.kind && d.balance == FormNumber(f.balance)
    ensures !FormTruthy(f.budget) ==> d.budget.None?
    ensures FormTruthy(f.budget) ==> d.budget == FormNumber(f.budget)
  {
    WalletData(TrimJs(f.name), f.kind, FormNumber(f.balance), if FormTruthy(f.budget) then FormNumber(f.budget) else None)
  }

  /**
   * What a ready form sends: a name with no white space at either end, a type, a
   * balance that is not negative, and no budget or one that is not negative.
   */
  lemma ReadyData(f: WalletFields)
    requires WalletReady(f)
    ensures var d := WalletDataOf(f);
            && d.name != "" && !JsSpace(d.name[0]) && !JsSpace(d.name[|d.name| - 1])
            && d.kind != ""
            && d.balance.Some? && d.balance.value >= 0
            && (d.budget.Some? ==> d.budget.value >= 0)
  {
  }

  /**
   * A zero balance passes when it comes from an edited wallet (the string "0" is truthy)
   * and fails when typed into the currency input (the number 0 is falsy).
   */
  lemma ZeroBalance(w: Wal)
    requires w.balance == Some(0)
    ensures WalletFieldError(InitialFields(Some(w)), BalanceKey).None?
    ensures WalletFieldError(InitialFields(Some(w)).(balance := Num(0)), BalanceKey) == Some(BadBalance)
  {
  }

  /** What `handleSubmit` does: show the errors, update the edited wallet, or add a new one. */
  datatype WalletSubmission = ShowWalletErrors(errors: map<WalletField, string>) | Update(id: int, data: WalletData) | Add(data: WalletData)

  /** `handleSubmit`: a ready form updates the wallet being edited, or adds one when there is none. */
  method HandleSubmit(f: WalletFields, wallet: Option<Wal>) returns (s: WalletSubmission)
    ensures s.ShowWalletErrors? <==> !WalletReady(f)
    ensures s.ShowWalletErrors? ==> WalletErrorsOf(f, s.errors) && s.errors != map[]
    ensures WalletReady(f) && wallet.Some? ==> s == Update(wallet.value.id, WalletDataOf(f))
    ensures WalletReady(f) && wallet.None? ==> s == Add(WalletDataOf(f))
  {
    var errors := Validate(f);
    WalletNoErrorsIffReady(f, errors);
    if |errors| > 0 {
      return ShowWalletErrors(errors);
    }
    var data := WalletDataOf(f);
    if wallet.Some? {
      s := Update(wallet.value.id, data);
    } else {
      s := Add(data);
    }
  }
}
