# Wallet ledger and aggregations — a Dafny model

This project models the core of a personal-finance application: a Go backend that keeps wallets and
transactions, and a React frontend that aggregates, validates, exports and formats them.

- **Ledger.** A transaction has a signed effect on the wallets it names: income adds the amount,
  expense subtracts it, and a transfer moves it between two wallets. Creating a transaction applies
  that effect through absolute balance writes, and deleting it applies the inverse. Module `Ledger`
  states the effect once and proves the balance invariant that creation, deletion, wallet opening
  and wallet closing keep.
- **Stores.** `TransactionStore`, `WalletStore` and `UserStore` are in-memory tables with an id
  counter. Each SQL query becomes a method whose contract gives the rows selected and their order (a
  sorted permutation). Each write becomes a method that changes exactly the named row. A write can be
  told to fail, which exercises the services' error and compensation paths.
- **Services.** `TransactionBook`, `WalletService`, `Dashboard`, `Reports` and `Auth` run the
  backend checks in the source's order and call the stores.
- **Configuration and authentication.** `Config` covers environment lookup and DSN precedence, and
  `AuthMiddleware` covers Bearer header parsing, following the `Authorization` header syntax of
  section 2.1 of RFC 6750 in simplified form.
- **Frontend.** The pure queries are functions with sum and partition lemmas: `Calculations`, the
  context selectors, the page filters and the CSV and date formatters. The code that builds lists and
  dictionaries step by step is written as methods with loops:
  - the groupings and the monthly trend;
  - the chart series;
  - the form validators;
  - the context providers, which hold the transaction and wallet lists as fields.

Amounts are exact integers (whole rupiah). Timestamps are integer milliseconds, and a frontend
calendar day is `ms / 86400000`. The clock, date parsing, password hashing and checking, and token
signing and validation are parameters of the operations that use them.

Modules follow the program's structure:
- shared modules: `Wrappers`, `Text`, `Folds`, `Sorting`, `Grouping`, `FrontModel`;
- the backend: `Domain`, `Ledger`, the repositories and the services, `Config`, `AuthMiddleware`, `AuthService`;
- the frontend: one module per core file.

## Model

| member | source | states |
|---|---|---|
| Domain.ParseTxType | backend/internal/domain/transaction.go:5-11 | a type read from its wire string names that string; anything but the three names is no type |
| Domain.ParseTypeName | backend/internal/domain/transaction.go:7-11 | a string reads as a type exactly when it is that type's lower-case name |
| Ledger.PostIsEffect | backend/internal/service/transaction_service.go:66-111 | the writes of a successful create add the transaction's signed effect to every wallet and touch no other key |
| Ledger.UnpostIsEffect | backend/internal/service/transaction_service.go:185-209 | the reversing writes of a delete subtract the same signed effect from every wallet |
| Ledger.UnpostPost | backend/internal/service/transaction_service.go:185-209 | deleting a transaction right after creating it restores every balance |
| Ledger.TransferKeepsPairSum | backend/internal/service/transaction_service.go:103-107 | a transfer debits the source, credits the destination, keeps their sum and leaves every other wallet alone |
| Ledger.NoEffect | backend/internal/service/transaction_service.go:185-209 | a wallet that no recorded transaction names has a total effect of zero |
| Ledger.PostKeepsConsistent | backend/internal/service/transaction_service.go:66-131 | after posting and recording a well-formed transaction, every balance is still its opening balance plus the effects of the transactions on record |
| Ledger.UnpostKeepsConsistent | backend/internal/service/transaction_service.go:185-214 | reversing and removing a recorded transaction keeps that ledger invariant |
| Ledger.OpenKeepsConsistent | backend/internal/service/wallet_service.go:38-62 | opening a wallet under an unused id keeps the ledger invariant |
| Ledger.CloseKeepsConsistent | backend/internal/service/wallet_service.go:118-136 | removing a wallet that no transaction names keeps the ledger invariant |
| TransactionRepository.NewerFirstOrder | backend/internal/repository/transaction_repository.go:59 | `ORDER BY date DESC, created_at DESC` is a total preorder, so sorting by it is well defined |
| TransactionRepository.Stats | backend/internal/repository/transaction_repository.go:145-167 | the three per-type totals of a user add up to the sum of all the user's amounts |
| TransactionRepository.StatsOfNone | backend/internal/repository/transaction_repository.go:147-152 | a user without rows gets 0 for all three totals (the `COALESCE`) |
| TransactionRepository.StatsAppend | backend/internal/repository/transaction_repository.go:147-152 | inserting a row moves exactly the total of its own type, for its own user, by its amount |
| TransactionRepository.TransactionStore.constructor | backend/internal/repository/transaction_repository.go:17-19 | a new store is empty, valid, and hands out id 1 first |
| TransactionRepository.TransactionStore.Create | backend/internal/repository/transaction_repository.go:21-52 | an insert appends the row with a fresh id and `created_at == updated_at == now` and returns those back to the caller; a failed insert changes nothing |
| TransactionRepository.TransactionStore.Scan | backend/internal/repository/transaction_repository.go:187-214 | the scan returns exactly the rows the `WHERE` selects, in table order |
| TransactionRepository.TransactionStore.Select | backend/internal/repository/transaction_repository.go:54-69 | a query result is a newest-first permutation of the selected rows |
| TransactionRepository.TransactionStore.FindByUserID | backend/internal/repository/transaction_repository.go:54-69 | exactly the user's rows, each once, newest first |
| TransactionRepository.TransactionStore.FindByWalletID | backend/internal/repository/transaction_repository.go:71-86 | exactly the rows whose source or destination is the wallet, newest first |
| TransactionRepository.TransactionStore.FindByDateRange | backend/internal/repository/transaction_repository.go:88-103 | exactly the user's rows dated from start to end with both ends included, newest first |
| TransactionRepository.TransactionStore.FindByID | backend/internal/repository/transaction_repository.go:105-132 | the row with that id, or "transaction not found" exactly when no row has it |
| TransactionRepository.TransactionStore.Delete | backend/internal/repository/transaction_repository.go:134-143 | removes the rows with that id and keeps the rest in order; a missing id is no error |
| TransactionRepository.TransactionStore.GetRecentByUserID | backend/internal/repository/transaction_repository.go:169-185 | at most `limit` of the user's rows, newest first, each newer than or as new as every row left out; a negative limit is an error |
| TransactionRepository.FilterSubset | backend/internal/repository/transaction_repository.go:134-143 | a delete only keeps rows that were there |
| TransactionRepository.DeleteOne | backend/internal/repository/transaction_repository.go:134-143 | with unique ids, deleting the id of one row removes exactly that row |
| TransactionRepository.DeleteNone | backend/internal/repository/transaction_repository.go:134-143 | deleting an id that no row has changes nothing |
| WalletRepository.CreatedNewerFirstOrder | backend/internal/repository/wallet_repository.go:58 | `ORDER BY created_at DESC` is a total preorder |
| WalletRepository.BalancesOf | backend/internal/repository/wallet_repository.go:158-178 | the balance column has one entry per wallet, its stored balance |
| WalletRepository.WalletStore.constructor | backend/internal/repository/wallet_repository.go:17-19 | a new table is empty and valid |
| WalletRepository.WalletStore.Create | backend/internal/repository/wallet_repository.go:21-51 | an insert stores the wallet under a fresh id, the balance exactly as given and `created_at == updated_at == now`; a failed insert changes nothing |
| WalletRepository.WalletStore.CollectUserWallets | backend/internal/repository/wallet_repository.go:67-86 | the scan loop collects the user's rows in id order |
| WalletRepository.WalletStore.FindByUserID | backend/internal/repository/wallet_repository.go:53-89 | each of the user's wallets exactly once, and nothing else, newest first |
| WalletRepository.WalletStore.FindByID | backend/internal/repository/wallet_repository.go:91-117 | the row with that id, or an error exactly when there is none |
| WalletRepository.WalletStore.Update | backend/internal/repository/wallet_repository.go:119-145 | writes name, currency, type, icon, color and `updated_at` of the row with that id and never the balance |
| WalletRepository.WalletStore.UpdateBalance | backend/internal/repository/wallet_repository.go:158-178 | an absolute write of one wallet's balance and `updated_at`; every other row is unchanged, and a missing id changes nothing |
| WalletRepository.BalanceWrite | backend/internal/repository/wallet_repository.go:158-169 | a write that went through is a balance write: the same ids, only the written row's balance and `updated_at` (set to the write time) changed, and the balance column has the new balance at that id |
| WalletRepository.TwoBalanceWrites | backend/internal/repository/wallet_repository.go:158-169 | two writes in a row touch only those two wallets, and the balance column is the old one with both entries overwritten, the later write winning |
| WalletRepository.BalanceWritesChain | backend/internal/repository/wallet_repository.go:158-169 | two rounds of balance writes are one round of balance writes to the ids of either |
| WalletRepository.WalletStore.Delete | backend/internal/repository/wallet_repository.go:147-156 | removes the row with that id and nothing else; a missing id is no error |
| WalletRepository.UserWalletsMembers | backend/internal/repository/wallet_repository.go:53-89 | the collected list holds each of the user's rows once and nothing else |
| TransactionService.Decide | backend/internal/service/transaction_service.go:32-115 | the checks in the source's order: a non-positive amount and a bad date are refused first; an accepted record is well formed, owned, funded unless income, and carries the request's fields |
| TransactionService.IncomeNeedsNoFunds | backend/internal/service/transaction_service.go:76-81 | an income into an owned wallet is accepted whatever the balance |
| TransactionService.ExpenseFunds | backend/internal/service/transaction_service.go:66-69 | an expense is refused with "insufficient balance" exactly when the balance is below the amount |
| TransactionService.TransferToSelfRefused | backend/internal/service/transaction_service.go:87-89 | a transfer to its own source wallet is refused |
| TransactionService.CreateWritesFaults | backend/internal/service/transaction_service.go:103-111 | without faults the create writes are exactly `Post`; a failed credit that is not rolled back leaves the source debited |
| TransactionService.DeleteWritesNoFaults | backend/internal/service/transaction_service.go:185-209 | without faults the delete writes are exactly `Unpost` |
| TransactionService.CreateRowsEffect | backend/internal/service/transaction_service.go:64-115 | the wallet table after the create writes has the balance column `CreateWrites` gives, and only the written wallets' balance and `updated_at` differ from before |
| TransactionService.CreateTransferEffect | backend/internal/service/transaction_service.go:103-111 | the same for a transfer: debit and credit, a debit left in place when the compensating write fails, and the balances restored when it succeeds |
| TransactionService.RestoreWrite | backend/internal/service/transaction_service.go:107-109 | a debit followed by a write of the balance read before it leaves every balance as it was, and changes only that wallet's `updated_at` |
| TransactionService.DeleteRowsEffect | backend/internal/service/transaction_service.go:185-209 | the wallet table after the reversing writes has the balance column `DeleteWrites` gives, and only the wallets actually written differ from before, in balance and `updated_at` |
| TransactionService.DeleteTransferEffect | backend/internal/service/transaction_service.go:200-208 | the same for a transfer: each wallet whose write went through is changed, from the balance read before either write |
| TransactionService.TransactionBook.constructor | backend/internal/service/transaction_service.go:15-20 | the service over the two stores, with the current balances as the opening balances |
| TransactionService.TransactionBook.PostWrites | backend/internal/service/transaction_service.go:64-115 | the balance writes of an accepted create, including the write that puts the source back; only the written wallets' balance and `updated_at` (set to now) change, and a failed write returns the source's message for it |
| TransactionService.TransactionBook.PostTransfer | backend/internal/service/transaction_service.go:103-111 | debit, credit, and when the credit fails the compensating write: the whole new wallet table is `CreateRows` of the old one, and the result is "failed to update source wallet balance" or "failed to update destination wallet balance" for the write that failed |
| TransactionService.TransactionBook.CreateTransaction | backend/internal/service/transaction_service.go:32-134 | a refused request writes nothing and returns the first failing check; an accepted one writes the balances, touching only the written wallets' balance and `updated_at`, then appends the record; a failed write or insert returns the source's message for it; with no store fault the ledger invariant is kept |
| TransactionService.TransactionBook.UnpostWrites | backend/internal/service/transaction_service.go:185-209 | the reversing writes, stamped with the current time and touching only the written wallets' balance and `updated_at`; a failed transfer write is ignored |
| TransactionService.TransactionBook.UnpostTransfer | backend/internal/service/transaction_service.go:200-208 | a transfer is reversed only when its destination is named and found: the whole new wallet table is `DeleteRows` of the old one, both wallets written from the balances read before either write, failures ignored |
| TransactionService.TransactionBook.DeleteTransaction | backend/internal/service/transaction_service.go:169-217 | a missing, foreign or walletless record is refused with nothing written; otherwise the reversing writes (only balance and `updated_at` of the written wallets change) and exactly that record removed; with no store fault the ledger invariant is kept |
| TransactionService.TransactionBook.ReverseAndRemove | backend/internal/service/transaction_service.go:185-216 | the reversing writes of the record's type are made, and the record alone is removed exactly when neither the needed wallet write nor the removal fails; with no fault the ledger invariant is kept |
| TransactionService.TransactionBook.GetRecentTransactions | backend/internal/service/transaction_service.go:227-236 | a limit of 0 or less means 10; that many of the user's rows (or all), newest first, each as new as every row left out |
| TransactionService.TransactionBook.GetWalletTransactions | backend/internal/service/transaction_service.go:144-159 | a missing wallet or another user's wallet is refused; otherwise the wallet's full listing |
| WalletService.CurrencyOrDefault | backend/internal/service/wallet_service.go:44-46 | a new wallet always has a currency: the requested one, or "IDR" when none is given |
| WalletService.Merge | backend/internal/service/wallet_service.go:94-109 | an update never changes the id, owner, balance or timestamps of a wallet |
| WalletService.MergeLaws | backend/internal/service/wallet_service.go:94-109 | an all-empty update changes nothing, and applying an update twice is applying it once |
| WalletService.MergeFields | backend/internal/service/wallet_service.go:94-109 | each non-empty request field replaces the stored one, each empty one keeps it |
| WalletService.WalletService.constructor | backend/internal/service/wallet_service.go:14-19 | the service over the two stores |
| WalletService.WalletService.GetWalletByID | backend/internal/service/wallet_service.go:73-85 | the wallet exactly when it exists and the caller owns it; "wallet not found" or "unauthorized access to wallet" otherwise |
| WalletService.WalletService.CreateWallet | backend/internal/service/wallet_service.go:38-63 | refused without a name; otherwise stored under a fresh id with the balance as given and the currency defaulted, keeping the ledger invariant |
| WalletService.WalletService.UpdateWallet | backend/internal/service/wallet_service.go:87-116 | for the owner only, the merged fields are written and no balance changes |
| WalletService.WalletService.DeleteWallet | backend/internal/service/wallet_service.go:118-136 | for the owner only; refused while a transaction names the wallet, unless that lookup fails; a deletion keeps the ledger invariant |
| WalletService.WalletService.GetTotalBalance | backend/internal/service/wallet_service.go:138-150 | the sum of the balances of all the user's wallets |
| DashboardService.SavingsPartition | backend/internal/service/dashboard_service.go:42-48 | the headline savings balance plus the balance of the other wallets is the user's whole balance |
| DashboardService.AllSavings | backend/internal/service/dashboard_service.go:42-48 | when every wallet is "tabungan" or "Tabungan", the headline balance is the whole balance |
| DashboardService.Bucket | backend/internal/service/dashboard_service.go:85-88 | an expense is filed under its category, or "Uncategorized" when that is empty; never under "" |
| DashboardService.SameRows | backend/internal/service/dashboard_service.go:76-91 | any order of the user's rows gives the same buckets, bucket sums and expense total |
| DashboardService.RowsCover | backend/internal/service/dashboard_service.go:93-100 | the result has one row per dictionary key, each once, holding that key's total |
| DashboardService.Dashboard.constructor | backend/internal/service/dashboard_service.go:14-19 | the service over the two stores |
| DashboardService.Dashboard.SavingsTotal | backend/internal/service/dashboard_service.go:43-48 | the loop sums exactly the balances of the savings wallets |
| DashboardService.Dashboard.GetSummary | backend/internal/service/dashboard_service.go:35-72 | savings balance, all-time income and expense totals, wallet count and listing, and the 10 newest transactions |
| DashboardService.Dashboard.Rows | backend/internal/service/dashboard_service.go:93-100 | one result row per bucket, in the listed order, adding up to the sum of the bucket totals |
| DashboardService.Dashboard.GetSpendingByCategory | backend/internal/service/dashboard_service.go:74-103 | every bucket of a user's expense appears exactly once and nothing else; each row holds its bucket's total; the rows add up to the user's total expense |
| ReportService.ReportSplit | backend/internal/service/report_service.go:42-50 | income, expense and transfer amounts split the whole turnover, so the report totals leave transfers out |
| Folds.FilterAgree | backend/internal/repository/transaction_repository.go:92 | two `WHERE` conditions that agree on every row select the same rows |
| ReportService.WholeRangeIsStats | backend/internal/service/report_service.go:34-63 | a range covering all of a user's dates reports the same income and expense as the all-time stats |
| ReportService.Reports.constructor | backend/internal/service/report_service.go:15-20 | the service over the transaction store |
| ReportService.Reports.Totals | backend/internal/service/report_service.go:42-50 | the loop sums the incomes and the expenses of the listing |
| ReportService.Reports.GetTransactionReport | backend/internal/service/report_service.go:34-63 | the range's listing with its income total, expense total, their difference and its row count |
| ReportService.Reports.ExportTransactions | backend/internal/service/report_service.go:65-71 | exactly the user's rows, newest first |
| Config.GetEnv | backend/internal/config/config.go:82-87 | the trimmed value when it is not blank, otherwise the fallback |
| Config.TrimFixed | backend/internal/config/config.go:83 | trimming a value with no white space at either end leaves it as it is |
| Config.GetEnvStable | backend/internal/config/config.go:82-87 | a value `getEnv` returned, stored back under its variable, reads back unchanged |
| Config.Load | backend/internal/config/config.go:35-65 | `DATABASE_URL` wins over `DB_URL`, both trimmed; host, port, user, database name, server port and secret are never empty |
| Config.LoadDefaults | backend/internal/config/config.go:42-62 | with nothing set every setting takes its default and there is no raw connection string |
| Config.GetDsn | backend/internal/config/config.go:68-80 | a raw connection string is used verbatim |
| Config.DsnFields | backend/internal/config/config.go:72-79 | when no field holds a space, the key=value string splits back into the six pairs in format order |
| Config.DsnPrecedence | backend/internal/config/config.go:42-45 | a non-blank `DATABASE_URL`, else a non-blank `DB_URL`, is the connection string |
| AuthMiddleware.BearerToken | backend/internal/middleware/auth_middleware.go:15-30 | an empty header and a malformed header get their own messages; an accepted token holds no space |
| AuthMiddleware.BearerIff | backend/internal/middleware/auth_middleware.go:23-30 | a header is accepted with a token exactly when it is "Bearer", one space and a token with no space |
| AuthMiddleware.RequestContext.constructor | backend/internal/middleware/auth_middleware.go:13 | a fresh request has no keys and is neither stopped nor answered |
| AuthMiddleware.RequestContext.GetUserId | backend/internal/middleware/auth_middleware.go:49-55 | the stored user id with true, or (0, false) exactly when none is stored |
| AuthMiddleware.RequestContext.Reject | backend/internal/middleware/auth_middleware.go:17-18 | answers 401 with the message and stops the chain, keeping the keys |
| AuthMiddleware.Authenticate | backend/internal/middleware/auth_middleware.go:12-46 | a request passes exactly when its bearer token validates, and then carries the token's user id and name; otherwise it is answered 401 with the first failing check's message |
| AuthService.UserStore.constructor | backend/internal/repository/user_repository.go:17-19 | a new user table is empty and valid |
| AuthService.UserStore.Create | backend/internal/repository/user_repository.go:21-46 | stores the user under a fresh id with `created_at == updated_at == now`; a failed insert changes nothing |
| AuthService.UserStore.FindByUsername | backend/internal/repository/user_repository.go:48-69 | a stored user with that name, or none exactly when nobody has the name |
| AuthService.UserStore.FindByID | backend/internal/repository/user_repository.go:71-92 | the user with that id, or "user not found" exactly when there is none |
| AuthService.Auth.constructor | backend/internal/service/auth_service.go:14-18 | the service over the user table |
| AuthService.Auth.Login | backend/internal/service/auth_service.go:35-62 | both fields required; an unknown name and a wrong password give the same error; a success carries the stored user whose password checks and a token signed for its id and name |
| AuthService.Auth.Signup | backend/internal/service/auth_service.go:64-106 | both fields required, then at least 6 bytes of password, then an unused name; only the hash is stored; names stay unique; a signing failure leaves the user created |
| AuthService.Auth.GetUserByID | backend/internal/service/auth_service.go:108-114 | the user with that id, or "user not found" |
| FrontModel.FormNumber | frontend/src/features/wallets/WalletFormModal.jsx:72 | `parseFloat` of a form value is NaN exactly for the empty string |
| FrontModel.Or | frontend/src/utils/calculations.js:107 | `a \|\| b` is `a` when it is truthy and `b` otherwise |
| FrontModel.OrElse | frontend/src/utils/exportData.js:26-28 | `s \|\| fallback` keeps a non-empty string and is never empty unless the fallback is |
| FrontModel.NewestFirstOrder | frontend/src/features/transactions/TransactionsPage.jsx:19 | the comparator `new Date(b.date) - new Date(a.date)` is a total preorder, newest first |
| FrontModel.Find | frontend/src/utils/calculations.js:110 | `Array.prototype.find`: undefined exactly when nothing matches, else the first element that matches |
| FrontModel.RowWallet | frontend/src/features/transactions/TransactionsPage.jsx:73-76 | the wallet shown on a row is a listed wallet whose id is the row's `walletId` or `fromWalletId` |
| FrontModel.ParseIntJs | frontend/src/context/WalletContext.jsx:110 | `parseInt` of the empty string is NaN |
| FrontModel.NatPrefix | frontend/src/context/WalletContext.jsx:110 | `parseInt` of a decimal followed by a non-digit reads the decimal |
| FrontModel.ParseIntRoundTrip | frontend/src/context/WalletContext.jsx:110 | `parseInt` of a printed integer gives the integer back |
| FrontModel.ThrownMessage | frontend/src/context/TransactionContext.jsx:69-76 | `err.response?.data?.error \|\| fallback`: the body's message when there is a non-empty one, else the fallback |
| Sorting.SortCorrect | frontend/src/features/transactions/TransactionsPage.jsx:19 | a sort returns a permutation of its input, in the order of the comparator |
| Sorting.TopN | frontend/src/context/TransactionContext.jsx:167-171 | the first n of a sorted list are as far forward in the order as every element left out |
| Sorting.StrLeOrder | frontend/src/utils/calculations.js:202 | the default string order of `sort()` is a total order |
| Text.Trim | frontend/src/features/wallets/WalletFormModal.jsx:47 | `trim` removes the white space at both ends and nothing else |
| Text.JoinSplit | backend/internal/middleware/auth_middleware.go:23 | joining the pieces of a split with the separator gives the string back |
| Text.SplitJoin | backend/internal/config/config.go:72-79 | splitting a join of pieces without the separator gives the pieces back |
| Text.ParseNatToString | frontend/src/utils/formatters.js:38-39 | printing a number and reading it back gives the number |
| Text.Utf8Len | backend/internal/service/auth_service.go:70 | `len` of a Go string counts its UTF-8 bytes, at least one per character |
| Calculations.TotalBalanceAppend | frontend/src/utils/calculations.js:10-12 | the total balance of two lists of wallets is the sum of their totals |
| Calculations.MissingBalanceIgnored | frontend/src/utils/calculations.js:11 | a wallet without a balance adds 0 to the total |
| Calculations.BalanceByTypeSplit | frontend/src/utils/calculations.js:15-19 | the wallets of one type and those of every other type split the total balance |
| Calculations.TwoTypes | frontend/src/utils/calculations.js:15-19 | with only "tabungan" and "transaksi" wallets, the two type totals add up to the whole |
| Calculations.EndOfDayBound | frontend/src/utils/calculations.js:29 | a date is at or before 23:59:59.999 of the end date exactly when its day is not after the end's day |
| Calculations.FilterByDateRange | frontend/src/utils/calculations.js:22-35 | a transaction is kept exactly when it is dated at or after the start and on or before the end's day |
| Calculations.CalculateTotals | frontend/src/utils/calculations.js:88-100 | income is the sum of the incomes and expense the sum of the expenses; an empty list gives 0 and 0 |
| Calculations.TotalsAppend | frontend/src/utils/calculations.js:88-100 | the totals of two lists together are the sums of their totals |
| Calculations.TransferIgnored | frontend/src/utils/calculations.js:91-95 | a transfer changes neither total |
| Calculations.WalletName | frontend/src/utils/calculations.js:110-113 | a group's name is never empty, and is "Unknown" when no wallet has the id |
| Calculations.GroupByWallet | frontend/src/utils/calculations.js:103-125 | one group per wallet key some transaction carries, none for a transaction without one; each group has its wallet's name, its transactions in input order and the sum of its expenses |
| Calculations.OneWalletGroup | frontend/src/utils/calculations.js:106-121 | a transaction is in a group exactly when it carries that group's key |
| Calculations.GroupByDate | frontend/src/utils/calculations.js:128-140 | one bucket per local day some transaction falls on, holding that day's transactions in input order |
| Calculations.OneDay | frontend/src/utils/calculations.js:128-140 | every transaction is in the bucket of its own day and in no other |
| Calculations.SortedMonths | frontend/src/utils/calculations.js:202 | sorting the months keeps each month once, in ascending order, and the totals |
| Calculations.CollectMonths | frontend/src/utils/calculations.js:185-200 | the loop lists each month once and gives it the sums of its incomes and of its expenses |
| Calculations.MonthlyTrend | frontend/src/utils/calculations.js:182-213 | every month some transaction falls in, once each, ascending, with its income and expense sums; the series add up to the overall totals |
| TransactionContext.IncomeRequest | frontend/src/context/TransactionContext.jsx:54-61 | an income request carries the parsed wallet id, the amount, the category or "Income", the description, and the date or the current time |
| TransactionContext.ExpenseRequest | frontend/src/context/TransactionContext.jsx:85-92 | an expense request carries the parsed wallet id, the amount, the category or "Expense", the description, and the date or the current time |
| TransactionContext.TransferRequest | frontend/src/context/TransactionContext.jsx:116-124 | a transfer request sends the source as `wallet_id`, the destination as `to_wallet_id`, and always the category "Transfer" |
| TransactionContext.RequestWallets | frontend/src/context/TransactionContext.jsx:55 | wallet ids chosen in the form reach the server unchanged |
| TransactionContext.TransactionProvider.constructor | frontend/src/context/TransactionContext.jsx:20-22 | the list starts empty, not loading and without an error |
| TransactionContext.TransactionProvider.LoadTransactions | frontend/src/context/TransactionContext.jsx:33-47 | a success replaces the list (`data \|\| []`); a refusal keeps it; a thrown error records its message; loading ends false |
| TransactionContext.TransactionProvider.Create | frontend/src/context/TransactionContext.jsx:50-78 | a success appends the created transaction and changes nothing else; otherwise the list is kept and the message returned, and recorded when thrown |
| TransactionContext.TransactionProvider.AddIncome | frontend/src/context/TransactionContext.jsx:50-78 | sends the income request and settles the list as `Create` states |
| TransactionContext.TransactionProvider.AddExpense | frontend/src/context/TransactionContext.jsx:81-109 | sends the expense request and settles the list as `Create` states |
| TransactionContext.TransactionProvider.AddTransfer | frontend/src/context/TransactionContext.jsx:112-141 | sends the transfer request and settles the list as `Create` states |
| TransactionContext.TransactionProvider.DeleteTransaction | frontend/src/context/TransactionContext.jsx:144-165 | a success drops every entry with that id and keeps the rest in order; a failure keeps the list |
| TransactionContext.DeleteExactly | frontend/src/context/TransactionContext.jsx:151 | after a delete an entry remains exactly when it was there with another id, as often as it was there |
| TransactionContext.DeleteUndoesAdd | frontend/src/context/TransactionContext.jsx:151 | deleting the id of a transaction just added, when no other entry has it, restores the list |
| TransactionContext.GetRecentTransactions | frontend/src/context/TransactionContext.jsx:167-171 | at most `limit` entries, newest first, taken from the list, each no older than every entry left out |
| TransactionContext.CalculatePeriodTotals | frontend/src/context/TransactionContext.jsx:173-182 | the income and expense totals of the transactions dated in the closed interval; transfers count in neither |
| TransactionContext.PeriodTotalsAppend | frontend/src/context/TransactionContext.jsx:173-182 | the period totals of a list are the sums of the totals of its parts |
| WalletContext.GetWalletById | frontend/src/context/WalletContext.jsx:109-111 | the first wallet whose id is the parsed id; nothing when the id does not parse or no wallet has it |
| WalletContext.WalletByIdRoundTrip | frontend/src/context/WalletContext.jsx:109-111 | with unique ids, the printed id of a wallet finds that wallet |
| WalletContext.GetTotalBalance | frontend/src/context/WalletContext.jsx:113-115 | the sum of the balances, which is `calculateTotalBalance`; NaN exactly when some wallet has no balance |
| WalletContext.GetTotalByType | frontend/src/context/WalletContext.jsx:117-121 | the sum of the balances of one type, which is `calculateBalanceByType`; NaN exactly when such a wallet has no balance |
| WalletContext.ReplaceWallet | frontend/src/context/WalletContext.jsx:73-75 | same length, each wallet with the id replaced by the server's copy, every other wallet in place |
| WalletContext.ReplaceKeepsOthers | frontend/src/context/WalletContext.jsx:73-75 | an update leaves the other wallets as they were, in the same order |
| WalletContext.ReplaceFound | frontend/src/context/WalletContext.jsx:73-75 | after an update a lookup of the id finds the server's copy |
| WalletContext.DeleteWalletExactly | frontend/src/context/WalletContext.jsx:95 | after a delete a wallet remains exactly when it was there with another id |
| WalletContext.WalletProvider.constructor | frontend/src/context/WalletContext.jsx:16-18 | the list starts empty, not loading and without an error |
| WalletContext.WalletProvider.LoadWallets | frontend/src/context/WalletContext.jsx:30-44 | a success replaces the list (`data \|\| []`); a refusal keeps it; a thrown error records its message |
| WalletContext.WalletProvider.AddWallet | frontend/src/context/WalletContext.jsx:46-65 | without a user nothing happens; a success appends the created wallet; a failure keeps the list |
| WalletContext.WalletProvider.UpdateWallet | frontend/src/context/WalletContext.jsx:67-87 | a success replaces the wallets with that id by the server's copy; a failure keeps the list |
| WalletContext.WalletProvider.DeleteWallet | frontend/src/context/WalletContext.jsx:89-107 | a success drops the wallets with that id and keeps the rest in order; a failure keeps the list |
| TransactionForm.Validate | frontend/src/features/transactions/TransactionFormModal.jsx:49-88 | the error dictionary holds exactly the fields with a message: "must differ" overwrites "choose a destination", and a missing amount overwrites an insufficient balance |
| TransactionForm.WalletChecks | frontend/src/features/transactions/TransactionFormModal.jsx:52-79 | the wallet checks leave the wallet fields with their final messages ("must differ" over "choose a destination") and flag the amount exactly when the selected wallet is overdrawn |
| TransactionForm.NoErrorsIffReady | frontend/src/features/transactions/TransactionFormModal.jsx:49-88 | the form passes exactly when the amount is positive and within the selected wallet's balance, the date is set, and a wallet is chosen (two different ones for a transfer) |
| TransactionForm.BalanceBoundary | frontend/src/features/transactions/TransactionFormModal.jsx:72-77 | an expense equal to the balance passes, one above it is refused as insufficient |
| TransactionForm.IncomeNotBalanceChecked | frontend/src/features/transactions/TransactionFormModal.jsx:68-82 | an income's only amount error is the missing-amount one |
| TransactionForm.PayloadOf | frontend/src/features/transactions/TransactionFormModal.jsx:98-114 | the payload has the parsed amount, the date, the trimmed category and description, and the wallet fields of the tab |
| TransactionForm.HandleSubmit | frontend/src/features/transactions/TransactionFormModal.jsx:90-118 | submits the tab's payload exactly when the form is ready, and otherwise shows a non-empty error dictionary |
| TransactionForm.SubmittedTransfer | frontend/src/features/transactions/TransactionFormModal.jsx:109-114 | a submitted transfer reaches the server as a positive amount between two different wallets |
| WalletForm.InitialFields | frontend/src/features/wallets/WalletFormModal.jsx:18-35 | a new wallet opens empty; an edited one shows its balance as a string and its budget only when truthy |
| WalletForm.Validate | frontend/src/features/wallets/WalletFormModal.jsx:45-60 | the error dictionary holds exactly the fields with a message: blank name, no type, falsy or negative balance, negative budget |
| WalletForm.WalletNoErrorsIffReady | frontend/src/features/wallets/WalletFormModal.jsx:45-60 | the form passes exactly when the name is not blank, a type is chosen, the balance is truthy and not negative, and a budget if given is not negative |
| WalletForm.WalletDataOf | frontend/src/features/wallets/WalletFormModal.jsx:70-75 | the data sent has the trimmed name, the type, the parsed balance, and the budget or null when left empty |
| WalletForm.ReadyData | frontend/src/features/wallets/WalletFormModal.jsx:62-84 | a ready form sends a non-blank trimmed name, a type, a balance that is not negative and no negative budget |
| WalletForm.ZeroBalance | frontend/src/features/wallets/WalletFormModal.jsx:53-55 | a zero balance passes when it comes from an edited wallet and fails when typed in |
| WalletForm.HandleSubmit | frontend/src/features/wallets/WalletFormModal.jsx:62-84 | a ready form updates the edited wallet or adds a new one; otherwise it shows a non-empty error dictionary |
| CurrencyInput.Digits | frontend/src/shared/components/Input.jsx:71 | stripping non-digits leaves only digits, never lengthens the text, and is empty exactly when the text has no digit |
| CurrencyInput.DigitsAppend | frontend/src/shared/components/Input.jsx:71 | stripping non-digits distributes over concatenation |
| CurrencyInput.DigitsOfDigits | frontend/src/shared/components/Input.jsx:71 | stripping non-digits leaves a digit string unchanged |
| CurrencyInput.CurrencyValue | frontend/src/shared/components/Input.jsx:72 | the field is empty exactly when no digit was typed, and otherwise holds the base-10 value of the digits |
| CurrencyInput.HandleCurrencyChange | frontend/src/shared/components/Input.jsx:69-78 | the change event carries the input's name and the parsed digits |
| CurrencyInput.DisplayValue | frontend/src/shared/components/Input.jsx:68 | a falsy value (empty or zero) shows as empty; any other is shown with id-ID thousands grouping |
| CurrencyInput.DigitsOfGrouped | frontend/src/shared/components/Input.jsx:68-71 | removing the grouping dots gives back the digits that were grouped |
| CurrencyInput.DisplayRoundTrip | frontend/src/shared/components/Input.jsx:68-78 | editing the displayed text of a positive amount without changing it gives back the same amount |
| CurrencyInput.ZeroShowsEmpty | frontend/src/shared/components/Input.jsx:68 | zero shows as an empty field, and reading that back yields an empty field, not 0 |
| CurrencyInput.SignDropped | frontend/src/shared/components/Input.jsx:71-72 | a typed minus sign is dropped, so the input never produces a negative amount |
| ReportsPage.Midnight | frontend/src/features/reports/ReportsPage.jsx:38-44 | the start of the day parsed from a date input falls on that day |
| ReportsPage.FilteredTransactions | frontend/src/features/reports/ReportsPage.jsx:42-50 | keeps exactly the transactions whose instant lies between the two bounds inclusive; an unparsable bound keeps nothing |
| ReportsPage.LastDayCutOff | frontend/src/features/reports/ReportsPage.jsx:42-50 | a transaction on the first day is always kept, but one on the last day is kept only at its very midnight |
| ReportsPage.PeriodWithinDays | frontend/src/features/reports/ReportsPage.jsx:42-50 | the period filter keeps nothing that the whole-day date-range filter would drop |
| ReportsPage.DayTotalIsSum | frontend/src/features/reports/ReportsPage.jsx:63-71 | a day's bar is the sum of that day's amounts of the charted type |
| ReportsPage.TransferNotCharted | frontend/src/features/reports/ReportsPage.jsx:65-71 | a transfer changes neither the income nor the expense bars |
| ReportsPage.Bars | frontend/src/features/reports/ReportsPage.jsx:62-75 | one bar per day, each the day's total |
| ReportsPage.BarsAddUp | frontend/src/features/reports/ReportsPage.jsx:62-75 | the bars over a window add up to the total of the window's transactions of that type |
| ReportsPage.BarChartData | frontend/src/features/reports/ReportsPage.jsx:53-94 | the chart covers the seven days ending today, in order, with the income and expense total of each day |
| ReportsPage.WeekAddsUp | frontend/src/features/reports/ReportsPage.jsx:53-94 | the week's income bars and expense bars each add up to the week's total of that type |
| ReportsPage.DoughnutLabels | frontend/src/features/reports/ReportsPage.jsx:98-107 | the labels are exactly the categories (with "Lainnya" for an empty one) of the period's expenses |
| ReportsPage.DoughnutSlice | frontend/src/features/reports/ReportsPage.jsx:98-104 | each slice is the period's expense total of its category |
| ReportsPage.DoughnutTotal | frontend/src/features/reports/ReportsPage.jsx:97-124 | the slices add up to the period's total expense |
| ReportsPage.DoughnutChartData | frontend/src/features/reports/ReportsPage.jsx:97-124 | distinct labels, one value each: the period's expense per category, adding up to the period's total expense |
| WalletDetailPage.WalletTransactions | frontend/src/features/wallets/WalletDetailPage.jsx:37-39 | the wallet's transactions are those where it is the wallet, the source or the destination, as a newest-first permutation |
| WalletDetailPage.WalletTotal | frontend/src/features/wallets/WalletDetailPage.jsx:42-48 | the wallet's income or expense total is the sum over the transactions booked on it of that type |
| WalletDetailPage.WalletDetail | frontend/src/features/wallets/WalletDetailPage.jsx:24-48 | not found exactly when the route id names no wallet; otherwise the wallet, its transactions, and its income and expense totals |
| WalletDetailPage.TransferListedNotCounted | frontend/src/features/wallets/WalletDetailPage.jsx:37-48 | a transfer touching the wallet is listed but changes neither total |
| WalletDetailPage.AsWrittenShowsNothing | frontend/src/features/wallets/WalletDetailPage.jsx:37-48 | comparing numeric wallet fields with the string route id never matches, so the list is empty and both totals are 0 |
| WalletDetailPage.AsWrittenMissesIncome | frontend/src/features/wallets/WalletDetailPage.jsx:37-48 | wallet 1 with an income of 100 shows no transactions and 0 income as written; the corrected page shows the income |
| TransactionsPage.FilteredTransactions | frontend/src/features/transactions/TransactionsPage.jsx:17-19 | "all" keeps every transaction and a type keeps exactly that type, as a newest-first permutation |
| Folds.FilterAll | frontend/src/features/transactions/TransactionsPage.jsx:18 | a filter every element passes leaves the list unchanged |
| TransactionsPage.TypesPartition | frontend/src/features/transactions/TransactionsPage.jsx:17-19 | each transaction appears under its own type filter and under no other type |
| TransactionsPage.Rows | frontend/src/features/transactions/TransactionsPage.jsx:72-76 | one row per listed transaction, in order, each with the wallet found for it |
| TransactionsPage.RowWithoutWallet | frontend/src/features/transactions/TransactionsPage.jsx:73-76 | a row has no wallet exactly when no wallet is its wallet or its source |
| TransactionsPage.TransferRowShowsSource | frontend/src/features/transactions/TransactionsPage.jsx:73-76 | a transfer's row shows the source wallet, never the destination alone |
| ExportData.Doubled | frontend/src/utils/exportData.js:35 | doubling quotes never shortens a cell and keeps every other character |
| ExportData.DoubledNoQuote | frontend/src/utils/exportData.js:35 | on a cell without quotes the corrected quoting and the quoting as written agree |
| ExportData.ReadQuotedRow | frontend/src/utils/exportData.js:33-36 | reading back a row quoted with doubled quotes gives its cells |
| ExportData.QuoteBreaksLine | frontend/src/utils/exportData.js:35 | the cell a"b quoted as written cannot be read back; with doubled quotes it can |
| ExportData.QuoteSplitsCell | frontend/src/utils/exportData.js:35 | the cell x","y quoted as written is read back as two cells |
| ExportData.Lines | frontend/src/utils/exportData.js:33-36 | the header line followed by one line per row, its cells quoted by the given quoting and joined by commas |
| ExportData.RowAsWrittenAgrees | frontend/src/utils/exportData.js:35 | on cells without quotes the line as written is the line with doubled quotes |
| ExportData.CsvAsWrittenAgrees | frontend/src/utils/exportData.js:33-36 | when no cell holds a quote the text as written is the text with doubled quotes |
| ExportData.CsvLines | frontend/src/utils/exportData.js:33-36 | with doubled quotes and no newline in any cell, the text splits into the header and one line per row, each reading back as its cells |
| ExportData.CsvLinesAsWritten | frontend/src/utils/exportData.js:33-36 | as written, with no quote and no newline in any cell, the text splits into the header and one line per row, each reading back as its cells |
| ExportData.TypeLabel | frontend/src/utils/exportData.js:18-21 | the Indonesian label of each type, and an empty label for any other |
| ExportData.WalletCell | frontend/src/utils/exportData.js:14-26 | the wallet name, or "-" when there is no wallet or its name is falsy |
| ExportData.TransactionCells | frontend/src/utils/exportData.js:23-29 | five cells: date, type label, wallet, the amount read back exactly, and the note or "-" |
| ExportData.TransactionRows | frontend/src/utils/exportData.js:13-30 | one row of cells per transaction, in input order |
| ExportData.ExportToCsv | frontend/src/utils/exportData.js:4-36 | the text as the program writes it (cells quoted, quotes not doubled) starts with the transaction header |
| ExportData.ExportToCsvCorrected | frontend/src/utils/exportData.js:4-36 | the text with embedded quotes doubled starts with the transaction header |
| ExportData.ExportRoundTrip | frontend/src/utils/exportData.js:4-36 | as written, with no quote and no newline in any date, wallet name or description: the text is the corrected one and has one line per transaction, each reading back as that transaction's cells |
| ExportData.ExportRoundTripCorrected | frontend/src/utils/exportData.js:4-36 | with quotes doubled and no newline in any date, wallet name or description, the text has one line per transaction, each reading back as that transaction's cells, quotes included |
| ExportData.BalanceCell | frontend/src/utils/exportData.js:62 | the balance reads back exactly, or "undefined" when missing |
| ExportData.BudgetCell | frontend/src/utils/exportData.js:63 | "-" exactly when the budget is falsy; otherwise the budget reads back exactly |
| ExportData.WalletCells | frontend/src/utils/exportData.js:59-64 | four cells: name, type, balance and budget |
| ExportData.WalletRows | frontend/src/utils/exportData.js:59-64 | one row of cells per wallet, in input order |
| ExportData.ExportWalletSummaryToCsv | frontend/src/utils/exportData.js:53-69 | the text as the program writes it (cells quoted, quotes not doubled) starts with the wallet summary header |
| ExportData.ExportWalletSummaryToCsvCorrected | frontend/src/utils/exportData.js:53-69 | the text with embedded quotes doubled starts with the wallet summary header |
| ExportData.WalletSummaryRoundTrip | frontend/src/utils/exportData.js:53-69 | as written, with no quote and no newline in names or types: the text is the corrected one and has one line per wallet, each reading back as that wallet's cells |
| ExportData.WalletSummaryRoundTripCorrected | frontend/src/utils/exportData.js:53-69 | with quotes doubled and no newline in names or types, the text has one line per wallet, each reading back as that wallet's cells, quotes included |
| Formatters.Pad2 | frontend/src/utils/formatters.js:38-39 | two digits that read back as the number |
| Formatters.FormatDateForInput | frontend/src/utils/formatters.js:35-41 | the year, a dash, two digits, a dash, two digits; ten characters for a four-digit year |
| Formatters.NatLength4 | frontend/src/utils/formatters.js:37 | a four-digit year prints as four characters |
| Formatters.DateInputRoundTrip | frontend/src/utils/formatters.js:35-41 | parsing the formatted date gives back the same date |
| Formatters.RelativeAsWritten | frontend/src/utils/formatters.js:44-60 | the bucket and count the code picks for each elapsed time, with years starting at 360 days but counted per 365 |
| Formatters.ZeroYears | frontend/src/utils/formatters.js:52-59 | exactly 360 days ago is shown as "0 tahun yang lalu" |
| Formatters.Bucket | frontend/src/utils/formatters.js:44-60 | each elapsed time falls in one bucket, with years starting at 365 days |
| Formatters.CountsPositive | frontend/src/utils/formatters.js:44-60 | every count shown in the corrected buckets is at least 1 and below the next unit |
| Formatters.AgreesOutsideGap | frontend/src/utils/formatters.js:44-60 | the corrected buckets agree with the code outside 360 to 364 days |
| Formatters.GetRelativeTime | frontend/src/utils/formatters.js:44-60 | as written: "Baru saja" exactly when less than a minute has passed; otherwise the whole minutes, hours, days or 30-day months elapsed with their unit, and from 360 days the whole 365-day years |
| Formatters.GetRelativeTimeCorrected | frontend/src/utils/formatters.js:44-60 | the same texts with the year bucket starting at 365 days, so 360 to 364 days read as 12 months |
| Formatters.NotJustNow | frontend/src/utils/formatters.js:55-59 | no other bucket reads as "Baru saja" |

## Left out

- Database access: the PostgreSQL queries become in-memory tables. A SQL `ORDER BY` is specified only up to ties (any sorted permutation), as SQL leaves ties unordered.
- HTTP handlers, routing, JSON responses and CORS are transport glue around the services.
- JWT signing and validation and bcrypt hashing are library calls. They are parameters (`hash`, `check`, `sign`, `validate`) about which nothing is assumed.
- React rendering, chart.js, modals, routing and the pages outside the core (Dashboard, WalletsPage, LoginPage, SignupPage and the shared display components) are not modelled. SignupPage asks for only 4 password characters where the backend asks for 6; only the backend rule is modelled.
- The axios service wrappers and the `AuthContext` session storage are not modelled; a server call is a parameter giving its response or error.
- `refreshWallets`, `handleChange` and the `loading` flag are not modelled. The contexts' `error` field is modelled.
- The Blob, link and DOM steps of the CSV download are not modelled; only the CSV text is.
- `Intl` number and date formatting (`formatCurrency`, `formatDate`, `toLocaleDateString` and the weekday labels) are locale library calls. The CSV date cell is a parameter `formatShort`. The currency display is modelled as id-ID thousands grouping of whole numbers.
- date-fns helpers (`startOfMonth`, `endOfMonth`, `eachDayOfInterval`, `isSameDay`, `parseISO`) become day arithmetic on milliseconds. An unparsable date is `None`. Time zones and daylight saving are not modelled.
- `getDateRangePreset`, `generateExpenseByWalletData` and the rest of calculations.js outside the named functions are not part of this model.
- float64 and JavaScript number rounding are not modelled; amounts are integers.
- Concurrency: there is no locking in the source, and the model is sequential, so the race between reading a balance and writing it back is not modelled.
- The error objects of the two forms are keyed by a datatype of their field names (`Field`, `WalletField`) rather than by strings; the keys are the same fixed set.
- The camelCase and snake_case field names (`walletId` against `wallet_id`) are abstracted: a frontend transaction has optional wallet, source and destination ids.
- `Object.keys` lists integer-like keys before the others. The groupings keep first-insertion order, and their contracts speak of the key sets.
- Go map iteration order in `GetSpendingByCategory` is unspecified. The model uses first-seen order, and `Dashboard.GetSpendingByCategory` states the categories as a set with distinct entries.
- ExportData.ExportRoundTrip holds only when no date, wallet name or description holds a quote or a newline. As written, a quote in a cell breaks the line or splits the cell (see Findings). `ExportData.ExportRoundTripCorrected` drops the quote condition for the corrected text.
- ExportData.WalletSummaryRoundTrip holds only when no wallet name or type holds a quote or a newline, for the same reason. `ExportData.WalletSummaryRoundTripCorrected` drops the quote condition for the corrected text.
- ExportData.CsvLines and `ExportData.CsvLinesAsWritten` do not read back cells that contain a newline. The reader splits the text at every newline, as the line count does, and does not rejoin quoted line breaks. `CsvLinesAsWritten` also requires cells without quotes.
- The backend wraps the store's error in its messages (`"failed to update wallet balance: %w"`). The model returns the message without the wrapped cause, which is the store's and not part of this model.
- ReportsPage.DoughnutChartData groups categories in a map keyed by the category string. The source groups them in a plain JavaScript object `{}`, where a category named after an `Object.prototype` member (`constructor`, `toString`) starts from the inherited value instead of 0, and `__proto__` is not stored as a key at all. Its contract holds only for categories that are not such names.
- ReportsPage.DoughnutTotal: the same holds of the total: a category named after an `Object.prototype` member makes the slices disagree with the period's expense.
- Loading `.env` files is not modelled: `Config.Load` takes the environment as a map.
- `GetUserTransactions`, `GetTransactionsByDateRange` and `GetTransactionStats` in transaction_service.go only pass through to the store. They are modelled by `TransactionStore.FindByUserID`, `TransactionStore.FindByDateRange` and `TransactionRepository.Stats`.
- Two defects are modelled as the code behaves, not fixed. A failed insert after the balance writes leaves the balances changed (transaction_service.go:129-131): `TransactionBook.CreateTransaction` states that state. Errors from the transfer-reversal writes are ignored (transaction_service.go:205-206): `TransactionBook.DeleteTransaction` carries on past them.

## Findings

| source | as written | input that shows it | evidently intended | confidence | as-written member | corrected member |
|---|---|---|---|---|---|---|
| frontend/src/features/wallets/WalletDetailPage.jsx:38 | `t.walletId === id` compares numeric wallet ids with the string route id, so nothing matches | wallet 1 with an income of 100, route id "1": no transactions listed, income 0 | list and total the wallet's own transactions | not executed | WalletDetailPage.AsWrittenMissesIncome | WalletDetailPage.WalletDetail |
| frontend/src/utils/exportData.js:35 | each cell is wrapped in quotes, but quotes inside it are not doubled | the cell `a"b` makes a line that does not read back; the cell `x","y` reads back as two cells | double the embedded quotes as RFC 4180 section 2 requires | not executed | ExportData.QuoteSplitsCell | ExportData.ExportRoundTripCorrected |
| frontend/src/utils/formatters.js:58-59 | twelve 30-day months start the year bucket, but years are counted per 365 days | an elapsed time of 360 days shows "0 tahun yang lalu" | the year bucket starts at 365 days, so the count is at least 1 | not executed | Formatters.ZeroYears | Formatters.CountsPositive |
