# A verified model of the banking backend

The backend moves money through SQL transactions and small protocols between services and banks.
This project models the parts whose correctness spans several operations or several concurrent
callers, and proves what they keep over every run.

* `Accounts`, `Ledger`: the account table (booked balance, available balance, limits and spending
  counters), payments, foreign-exchange payments through the bank's own accounts, internal transfers
  and reversals, fund reservations, two-phase interbank reservations, resets and the monthly fee job.
  Every SQL transaction is a function from the committed tables to the tables after commit or to the
  error that rolls it back; `BankingCore.Service` is the service that changes the tables step by step,
  proved to compute exactly that function.
* `Effects`: what each transaction does to every row, and exactly when it commits, said from the columns.
* `LedgerSafety`, `Conservation`: what every run of those transactions keeps and conserves; `Witnesses` has
  committed inputs for which totals are not kept.
* `Interleaving`: reserve, commit, release, debit and credit at statement level with row locks, proved
  equivalent to a serial run. `Deadlock`: transactions that lock several rows. `FineAmounts`: amounts with
  fractions of a cent.
* `Decimals`, `Margins`: rounding, margin trades, deposits and withdrawals, and their history.
* `Annuity`, `Credit`: the annuity formula in exact and in rounded arithmetic, the interest calculator,
  and the life of a loan under collection sweeps; `LoanWitnesses` has concrete loans.
* `Exercise`, `Retry`, `Lease`, `Inbound`: four protocols with concurrent callers, crashes, lost answers
  or repeated deliveries.
* `Luhn`, `Wire`, `Proto`: check digits and the two encodings of interbank messages.

Modelling choices:

* Balances and amounts of the ledger are whole cents, the scale of the account columns; loans keep four
  decimals and rates ten, the scales of theirs. Tables are sequences in id
  order, so a row's position stands for its id. Times are integers and the clock is a parameter.
* Some values exist only to state properties and are read by no operation: the debits since a reset and
  the limits then in force, a margin account's opening margin, what trades moved, what a loan repaid
  and wrote off, what was paid out, how often an installment failed, who claimed a contract, the resends
  and their fate, lock grants, executor calls.
* The market service's quotes, the client's ability to pay, the partner's and the executor's answers,
  verification results and the outcome of each store call are parameters, so the theorems hold for all
  of them.
* `Inv` in each module is the opening state's condition as well as the invariant: non-negative balances,
  distinct account numbers, and reservations that refer to existing accounts.

Where the code does less than one would expect, the exact condition is proved:

* A cross-currency payment addressed to the bank itself does not keep the per-currency totals, nor does
  a same-currency payment with unequal amounts (`Conservation.PaymentConservesExactly`).
* A reversal replays the source-currency amount on both accounts, so it undoes a transfer exactly when
  both ends share a currency (`Conservation.ReverseUndoesExactly`).
* The fee job overwrites the bank's row with its balance before the job plus the total. If the bank's own
  account carries a fee this creates money, and a fee taken from an account in another currency changes
  currency (`Conservation.FeesConserveExactly`).
* A margin purchase succeeds only with a positive rounded bank share, because the leg to the exchange is
  attempted even for a zero amount (`Margins.BuySucceedsExactly`, `Margins.ShareVanishesExactly`).
* When a settlement leg of an exercise fails, the executor releases its claim (EXERCISED to ACTIVE) while
  the caller has yet to revert, so a second caller can enter and both can succeed. Exclusion holds exactly
  without such a release (`Exercise.SafeExactlyWithoutBadReopen`, `Exercise.ReleaseLetsTwoSucceed`). The
  comment at interbank-service/internal/service/otc_contracts.go:154-159 says the executor's gate does not
  cover the buyer's side; interbank-service/internal/store/contracts.go:233-243 says it does, and it does.
* The minimum gap after a scheduled job can be lost exactly when its release does not take effect and
  neither the lease nor the time already passed covers the gap (`Lease.GapKeptExactly`).
* A message is resent more often than the maximum exactly when the resends whose outcome was not applied
  outnumber its remaining retries (`Retry.ResendsExactly`).
* The executor runs for a key once per executed reply that could not be cached, plus once for the reply
  that was (`Inbound.ExecutedExactly`), so a failed insert lets a repeated message run again.
* A loan's row keeps four decimals of the debt the next installment was computed from. This costs every
  payment up to 0.00005075 and the books up to 0.00005, a debt below 0.00005 is stored as zero, and an
  installment that rounds to nothing can never be collected (`Annuity.PaymentError`,
  `Credit.ZeroDebtExactly`, `Credit.ZeroInstallmentIsNeverPaid`).
* The writes of one collection turn are separate statements; a failure between them strands the loan
  (`Credit.TurnKeepsExactly`, `Credit.HalfTurnStrands`). A failure before the first of them leaves no trace
  of the charge, which is then made again.
* A payout whose approving transaction fails is not taken back (`Credit.EveryLoanIsPaidOut`).
* A reservation keeps the ledger's books exactly when its amount is in whole cents, and one that ends in
  half a cent makes a cent when it is released (`FineAmounts.WholeCentsExactly`).
* Transactions that lock two rows in opposite order can deadlock (`Deadlock.TwoDeadlockExactly`).
* The interest tiers end at 1,000,000: the loop stops one entry before the table's last, so 5,000,000 is
  never compared (`Annuity.TiersEndAtOneMillion`).

## Model

| member | source | states |
|---|---|---|
| `Accounts.DebitKeeps` | banking-core-service-go/internal/service/accounts.go:231-270 | a debit that is let through leaves available money non-negative, booked minus available unchanged, counters within the limits in force, all other rows alone, and takes exactly the amount off its currency's total |
| `Accounts.CreditKeeps` | banking-core-service-go/internal/service/accounts.go:272-292 | the same for a credit, which adds exactly the amount to its currency's total |
| `Accounts.ByNumber` | banking-core-service-go/internal/service/accounts.go:298-304 | finds a live row with the number, and fails only if there is none |
| `Accounts.ByOwner` | banking-core-service-go/internal/service/accounts.go:306-312 | finds the first live row of the owner in the currency, and fails only if there is none |
| `Accounts.TallyMeaning` | banking-core-service-go/internal/service/accounts.go:245-253 | a counter is the sum of the debits since the reset, each of which left it within the limit then in force |
| `Accounts.SpendingMeaning` | banking-core-service-go/internal/service/accounts.go:245-268 | daily and monthly spending are those sums, and daily spending plus the remaining allowance equals the limit at the reset |
| `LedgerSafety.SpendingInEveryRun` | banking-core-service-go/internal/service/scheduled.go:76-99 | the same for every account after every run of debits, resets, limit edits and all other transactions |
| `LedgerSafety.MoveSucceedsExactly` | banking-core-service-go/internal/service/accounts.go:231-325 | a debit and credit go through if and only if both amounts are positive, both accounts live, the first has the funds and limits, and each is open to its client |
| `Effects.DebitExactly` | banking-core-service-go/internal/service/accounts.go:231-270 | a debit commits exactly on a live, active, unexpired account of the client or the bank with the money, both limits and the allowance for it; it is taken off both balances of that row alone and counted as spent; and which refusal each missing condition gets |
| `Effects.CreditExactly` | banking-core-service-go/internal/service/accounts.go:272-292 | the same for a credit, which counts nothing |
| `Effects.PaymentEffect` | banking-core-service-go/internal/service/account_public_helpers.go:413-465 | each row's exact change in a committed payment: payer, payee and the bank's accounts in each currency, shares adding up where they coincide |
| `Effects.PaymentCommitsExactly` | banking-core-service-go/internal/service/account_public.go:716-752 | a payment commits if and only if its client may make it and payer and bank accounts are open and can pay |
| `Effects.BankTransactionEffect` | banking-core-service-go/internal/service/account_public.go:754-787 | each row's exact change: the bank pays `to`, or `from` pays the bank |
| `Effects.BankTransactionCommitsExactly` | banking-core-service-go/internal/service/account_public.go:754-787 | exactly when it commits |
| `Effects.TransferEffect` | banking-core-service-go/internal/service/internal.go:132-218 | each row's exact change in a transfer, with quoted credit and commission between currencies, and its log row |
| `Effects.TransferCommitsExactly` | banking-core-service-go/internal/service/internal.go:132-218 | exactly when it commits |
| `Effects.ReverseEffect` | banking-core-service-go/internal/service/internal.go:220-269 | the logged amount goes back from target to source, once |
| `Effects.ReverseCommitsExactly` | banking-core-service-go/internal/service/internal.go:220-269 | exactly when it commits |
| `Effects.ReserveExactly` | banking-core-service-go/internal/service/interbank.go:148-197 | when a reservation commits, and its effect on every row |
| `Effects.FinaliseExactly` | banking-core-service-go/internal/service/interbank.go:199-277 | what commit and release do in every state of the reservation, row by row |
| `Effects.ReserveFundsEffect` | banking-core-service-go/internal/service/internal.go:43-74 | funds come from the owner's first RSD account |
| `Effects.FundsEffect` | banking-core-service-go/internal/service/internal.go:76-130 | a release gives held funds back to their account, a commit only flips the row, and neither touches any other reservation |
| `Effects.FundsCommitExactly` | banking-core-service-go/internal/service/internal.go:43-107 | exactly when funds are reserved and released |
| `Effects.ResetEffect` | banking-core-service-go/internal/service/scheduled.go:76-99 | a reset zeroes the counter of every live account, and the daily one makes the limit the day's allowance |
| `Effects.FeesEffect` | banking-core-service-go/internal/service/scheduled.go:137-215 | who pays the fee, from the columns, and each row's exact change |
| `Effects.FeeRecordsNameThePayers` | banking-core-service-go/internal/service/scheduled.go:137-215 | the audit names exactly the accounts that pay, with their fee and the bank's account |
| `Effects.EditLimitsExactly` | banking-core-service-go/internal/service/account_public_helpers.go:315-347 | who may edit limits, and that nothing else changes |
| `Effects.StatusAndErasureEffect` | banking-core-service-go/internal/service/account_public.go:563-581 | a status edit changes one row's status, not of a system account; an erasure marks all of a client's accounts |
| `Effects.OpenExactly` | banking-core-service-go/internal/service/account_public.go:966-987 | a new account needs a fresh number and starts with its balance and the default limits |
| `LedgerSafety.PaymentKeeps` | banking-core-service-go/internal/service/account_public_helpers.go:413-465 | a payment keeps every row sound and moves each currency's total by exactly its imbalance, whichever accounts coincide |
| `LedgerSafety.BankTransactionKeeps` | banking-core-service-go/internal/service/account_public.go:754-787 | a transaction with the bank, in either direction, keeps every row sound and every total |
| `LedgerSafety.TransferKeeps` | banking-core-service-go/internal/service/internal.go:132-218 | an internal transfer keeps every row sound and moves each currency's total by nothing within a currency, and otherwise by the quoted credit and the debit net of commission |
| `LedgerSafety.ReverseKeeps` | banking-core-service-go/internal/service/internal.go:220-269 | a reversal keeps every row sound and moves the logged amount between the totals of the two ends' currencies |
| `LedgerSafety.ReserveKeeps` | banking-core-service-go/internal/service/interbank.go:148-197 | reserving keeps the ledger invariant |
| `LedgerSafety.CommitKeeps` | banking-core-service-go/internal/service/interbank.go:199-237 | committing keeps it, with no balance check of its own |
| `LedgerSafety.ReleaseKeeps` | banking-core-service-go/internal/service/interbank.go:239-277 | releasing keeps it |
| `LedgerSafety.CommitNeedsNoCheck` | banking-core-service-go/internal/service/interbank.go:199-237 | committing any HELD reservation on a live account succeeds, takes exactly its amount off the booked balance and leaves it at or above the available one, hence non-negative |
| `LedgerSafety.FundsKeep` | banking-core-service-go/internal/service/internal.go:43-130 | reserving, releasing and committing funds keep the ledger invariant |
| `LedgerSafety.FeesKeep` | banking-core-service-go/internal/service/scheduled.go:137-215 | the fee job keeps the ledger invariant |
| `LedgerSafety.StepKeepsInv` | banking-core-service-go/internal/service/interbank.go:148-277 | every kind of transaction keeps the ledger invariant |
| `LedgerSafety.EveryRunIsSafe` | banking-core-service-go/internal/service/interbank.go:148-277 | in every run of any transactions, succeeding or failing, each account has booked minus available equal to its HELD reservations and booked >= available >= 0 |
| `Conservation.PaymentConservesExactly` | banking-core-service-go/internal/service/account_public_helpers.go:413-465 | a committed payment keeps all per-currency totals if and only if it is within one currency with equal amounts, or between currencies to a payee other than the bank |
| `Conservation.TransferConservesExactly` | banking-core-service-go/internal/service/internal.go:132-218 | a committed transfer keeps all per-currency totals if and only if both ends share a currency, whatever the quote |
| `Conservation.ReverseConservesExactly` | banking-core-service-go/internal/service/internal.go:220-269 | a committed reversal keeps them under the same condition |
| `Conservation.ReverseUndoesExactly` | banking-core-service-go/internal/service/internal.go:220-269 | reversing a transfer restores both balances of every account if and only if both ends share a currency |
| `Conservation.ReservationNetEffect` | banking-core-service-go/internal/service/interbank.go:148-277 | reserve then release restores the account table exactly; reserve then commit takes the amount off both balances; repeats change nothing and the other outcome is refused |
| `Conservation.ReservationsNetEffect` | banking-core-service-go/internal/service/interbank.go:148-277 | over every run of reserve, commit and release calls, each account's booked balance falls by exactly what was committed and its available balance by exactly what was reserved and not released |
| `Conservation.TerminalStatesAreFinal` | banking-core-service-go/internal/service/interbank.go:199-277 | in every run a reservation is finalised at most once and nothing else about it changes |
| `Conservation.AuditAddsUp` | banking-core-service-go/internal/service/scheduled.go:137-215 | one audit record per charged account, adding up to the total |
| `Conservation.FeesChargeExactly` | banking-core-service-go/internal/service/scheduled.go:137-215 | each account other than the bank's pays its fee or nothing, and the bank is credited with exactly the audit sum |
| `Conservation.FeesConserveExactly` | banking-core-service-go/internal/service/scheduled.go:137-215 | the fee job keeps all totals if and only if every charged account is an RSD account other than the bank's |
| `Witnesses.PaymentToBankChangesTotals` | banking-core-service-go/internal/service/account_public_helpers.go:438-443 | a payment in euros to the bank's dinar account commits and changes the totals |
| `Witnesses.UnequalPaymentChangesTotals` | banking-core-service-go/internal/service/account_public_helpers.go:413-465 | so does a payment within one currency with unequal amounts |
| `Witnesses.ForeignTransferIsNotUndone` | banking-core-service-go/internal/service/internal.go:132-269 | a transfer between currencies and its reversal both commit, neither keeps the totals and the balances do not come back |
| `Witnesses.FeesCanMissBalance` | banking-core-service-go/internal/service/scheduled.go:137-215 | a fee on the bank's own row, or on an account in another currency, changes the totals |
| `FineAmounts.WholeCentsExactly` | banking-core-service-go/internal/service/interbank.go:168-277 | a reserve and release keep booked minus available equal to what is held if and only if the amount is in whole cents |
| `FineAmounts.ReleaseRestoresExactly` | banking-core-service-go/internal/service/interbank.go:239-277 | releasing restores the available balance unless the amount ends in half a cent, and then gives a cent too much |
| `FineAmounts.MoveConservesExactly` | banking-core-service-go/internal/service/accounts.go:231-292 | moving an amount with fractions of a cent keeps the total unless it ends in half a cent, and then makes a cent |
| `FineAmounts.HalfCentMakesMoney` | banking-core-service-go/internal/db/db.go:341-341 | with 0.01 available, reserving and releasing 0.005 leaves 0.02 |
| `Conservation.StepConserves` | banking-core-service-go/internal/service/internal.go:43-107 | booked money plus fund reservations not released plus interbank money committed is kept per currency by every balanced transaction, and by failures |
| `Conservation.RunConserves` | banking-core-service-go/internal/service/account_public.go:716-787 | the same over whole runs |
| `Interleaving.CommitIsAtomic` | banking-core-service-go/internal/service/interbank.go:306-321 | the commit of an interleaved transaction has exactly the effect of the atomic one at that moment |
| `Interleaving.InterleavingIsSerial` | banking-core-service-go/internal/service/interbank.go:148-277 | every interleaving of statements under row locks leaves the tables as the serial run of its committed transactions in commit order |
| `Interleaving.InterleavingsAreSafe` | banking-core-service-go/internal/service/interbank.go:148-277 | in every interleaving reservations are finalised at most once and balances stay as in `EveryRunIsSafe` |
| `Interleaving.InterleavedNetEffect` | banking-core-service-go/internal/service/interbank.go:148-277 | in every interleaving of reserve, commit and release the net effect of each reservation is minus its amount on both balances if committed and nothing if released |
| `Interleaving.NoDeadlock` | banking-core-service-go/internal/service/interbank.go:306-321 | while any transaction is unfinished, some unfinished one can take its next statement |
| `Deadlock.OrderedNeverStuck` | banking-core-service-go/internal/service/account_public_helpers.go:402-465 | transactions that lock several rows never deadlock if all of them follow one ranking of the rows |
| `Deadlock.TwoDeadlockExactly` | banking-core-service-go/internal/service/internal.go:145-152 | two transactions between two rows each can deadlock if and only if they name the same two rows in opposite order, as two opposite transfers do |
| `BankingCore.Service.DebitTx` | banking-core-service-go/internal/service/accounts.go:231-270 | changes the account rows as the debit function says, or answers its error and changes nothing |
| `BankingCore.Service.CreditTx` | banking-core-service-go/internal/service/accounts.go:272-292 | likewise for credits |
| `BankingCore.Service.ApplyPaymentTx` | banking-core-service-go/internal/service/account_public_helpers.go:413-465 | the sequence of debits and credits computes the payment whose effect on every row is `Effects.PaymentEffect` |
| `BankingCore.Service.ApplyPaymentOperation` | banking-core-service-go/internal/service/account_public.go:716-752 | commits that whole payment or leaves every table as it was |
| `BankingCore.Service.TransactionFromBank` | banking-core-service-go/internal/service/account_public.go:754-787 | commits the whole bank transaction of `Effects.BankTransactionEffect` or leaves every table as it was |
| `BankingCore.Service.TransferInternal` | banking-core-service-go/internal/service/internal.go:132-218 | commits transfer and log row together or neither |
| `BankingCore.Service.ReverseTransfer` | banking-core-service-go/internal/service/internal.go:220-269 | commits reversal and log status together or neither |
| `BankingCore.Service.ReserveFunds` | banking-core-service-go/internal/service/internal.go:43-74 | commits debit and reservation row together or neither |
| `BankingCore.Service.ReleaseFunds` | banking-core-service-go/internal/service/internal.go:76-107 | commits credit and status together or neither |
| `BankingCore.Service.CommitFunds` | banking-core-service-go/internal/service/internal.go:109-130 | flips a held fund reservation and nothing else |
| `BankingCore.Service.ReserveMonas` | banking-core-service-go/internal/service/interbank.go:148-197 | commits available balance and reservation row together or neither |
| `BankingCore.Service.CommitReservation` | banking-core-service-go/internal/service/interbank.go:199-237 | commits booked balance and status together or neither |
| `BankingCore.Service.ReleaseReservation` | banking-core-service-go/internal/service/interbank.go:239-277 | commits available balance and status together or neither |
| `BankingCore.Service.ResetDailySpending` | banking-core-service-go/internal/service/scheduled.go:76-89 | resets the daily counter and allowance of every live account |
| `BankingCore.Service.ResetMonthlySpending` | banking-core-service-go/internal/service/scheduled.go:91-99 | resets the monthly counter of every live account |
| `BankingCore.Service.ChargeFees` | banking-core-service-go/internal/service/scheduled.go:137-215 | the fee loop charges every row its fee, writes the audit records and returns their sum |
| `BankingCore.Service.RunMaintenanceFees` | banking-core-service-go/internal/service/scheduled.go:137-215 | the whole job computes the fee function |
| `BankingCore.Service.EditAccountLimit` | banking-core-service-go/internal/service/account_public_helpers.go:315-347 | changes the two limits of one account and no counter, or nothing |
| `Decimals.RoundDivIsNearest` | banking-core-service-go/internal/decimal/decimal.go:68-92 | the rounded quotient is the nearest integer with ties away from zero, and no other integer is |
| `Decimals.RoundDivIsOdd` | banking-core-service-go/internal/decimal/decimal.go:68-92 | rounding commutes with negation |
| `Decimals.RoundDivOfScaled` | banking-core-service-go/internal/decimal/decimal.go:68-92 | rounding depends on the value of the fraction, not on how it is written |
| `Decimals.RoundDivIsMonotone` | banking-core-service-go/internal/decimal/decimal.go:68-92 | rounding keeps the order of fractions |
| `Decimals.RoundedAtScale` | banking-core-service-go/internal/decimal/decimal.go:68-92 | a value already at scale is unchanged |
| `Decimals.Round` | banking-core-service-go/internal/decimal/decimal.go:68-92 | the step-by-step rounding yields the nearest value at the scale |
| `Decimals.PowerOfTen` | banking-core-service-go/internal/decimal/decimal.go:195-202 | the loop computes the power of ten |
| `Margins.BankPartBounds` | banking-core-service-go/internal/service/margin_transactions.go:59-72 | the bank's share of a trade is between zero and the amount |
| `Margins.BankPartIsRounded` | banking-core-service-go/internal/service/margin_transactions.go:59-72 | it is the product rounded to two decimals |
| `Margins.EveryRunBalances` | banking-core-service-go/internal/service/margin_transactions.go:45-202 | in every run equity equals the opening margin plus the recorded history, loan and margin are non-negative, active means initial >= maintenance, and the net amount moved from bank to exchange is the sum of all loans |
| `Margins.TradeLegs` | banking-core-service-go/internal/service/margin_transactions.go:247-267 | a trade changes the bank's and the exchange's booked balances by opposite amounts, exactly the change in what was moved, and keeps every account sound |
| `Margins.BlockedReopensOnlyByDeposit` | banking-core-service-go/internal/service/margin_transactions.go:132-162 | only a deposit by its own user changes a blocked margin account; no operation changes maintenance margin, participation or owner |
| `Margins.BlockedUntilDeposit` | banking-core-service-go/internal/service/margin_transactions.go:45-202 | through every run without a deposit of its own user a blocked margin account stays exactly as it is |
| `Margins.BuySucceedsExactly` | banking-core-service-go/internal/service/margin_transactions.go:45-85 | a purchase succeeds if and only if exactly one owner is named, its margin account is active and covers the client's part, the bank's rounded share is positive, and the bank's account has the funds and limits and the exchange's account is open |
| `Margins.BuyEffect` | banking-core-service-go/internal/service/margin_transactions.go:45-85 | the loan grows by amount times participation to the nearest cent, the margin pays the rest, and the share goes from the bank's row to the exchange's; with the history row |
| `Margins.SellEffect` | banking-core-service-go/internal/service/margin_transactions.go:87-130 | the loan falls by amount times participation to the nearest cent but not below zero, the margin gets the rest, and the exchange's row pays the bank's what the loan fell by; with the history row |
| `Margins.SellSucceedsExactly` | banking-core-service-go/internal/service/margin_transactions.go:87-130 | exactly when a sale succeeds |
| `Margins.DepositExactly` | banking-core-service-go/internal/service/margin_transactions.go:132-162 | when a deposit succeeds, and its effect on margin, history and every account |
| `Margins.WithdrawExactly` | banking-core-service-go/internal/service/margin_transactions.go:164-202 | the same for a withdrawal |
| `Margins.CreateExactly` | banking-core-service-go/internal/service/margin_accounts.go:62-214 | when a margin account is created, and with what |
| `Margins.ShareVanishesExactly` | banking-core-service-go/internal/service/margin_transactions.go:59-72 | the share rounds to nothing if and only if it is below half a cent |
| `Margins.TooSmallToBuy` | banking-core-service-go/internal/service/margin_transactions.go:45-85 | then the purchase is refused whatever the account holds |
| `Margins.ZeroParticipationNeverBuys` | banking-core-service-go/internal/service/margin_transactions.go:45-85 | an account in which the bank takes no part can never be bought on |
| `Margins.BankLendsWhatClientsOwe` | banking-core-service-go/internal/service/margin_transactions.go:45-202 | over every run of margin operations the bank's booked balance falls and the exchange's rises by exactly the growth of all loans, unless a deposit or withdrawal names one of the two accounts itself |
| `Margins.Service.Legs` | banking-core-service-go/internal/service/margin_transactions.go:247-267 | both legs and one counter tick, or nothing |
| `Margins.Service.BuyOnMargin` | banking-core-service-go/internal/service/margin_transactions.go:45-85 | commits legs, margin row and history row together or nothing |
| `Margins.Service.SellOnMargin` | banking-core-service-go/internal/service/margin_transactions.go:87-130 | likewise, repaying the loan first and moving money only if some is repaid |
| `Margins.Service.AddToMarginForUser` | banking-core-service-go/internal/service/margin_transactions.go:132-162 | commits debit, margin row and history row together or nothing |
| `Margins.Service.WithdrawFromMarginForUser` | banking-core-service-go/internal/service/margin_transactions.go:164-202 | commits margin row, credit and history row together or nothing, never below maintenance |
| `Margins.Service.CreateAccount` | banking-core-service-go/internal/service/margin_accounts.go:62-152 | creates at most one margin account per owner, with valid margins and participation |
| `Annuity.ScheduleEndsAtZero` | credit-service-go/internal/service/loan_service.go:436-463 | in exact arithmetic, for any period and any positive rates month by month, the debt stays positive and strictly falls until the last payment and is exactly zero after it |
| `Annuity.UnchangedRateKeepsInstallment` | credit-service-go/internal/service/loan_service.go:436-463 | with an unchanged rate the recomputed installment equals the previous one |
| `Annuity.Shrinkage` | credit-service-go/internal/service/loan_service.go:193-198 | the annuity denominator is positive, and what a payment leaves of the debt, in terms of it |
| `Annuity.ValError` | credit-service-go/internal/service/loan_service.go:196-197 | the computed factor is within 10^-10 of the exact one |
| `Annuity.InstallmentError` | credit-service-go/internal/service/loan_service.go:436-463 | paying the rounded installment on the very debt it was computed from leaves a debt within D/10^10 + 0.00005 of the exact one |
| `Annuity.PaymentError` | credit-service-go/internal/service/loan_service.go:436-475 | a payment made, as the code makes it, against the four decimals the column kept of debt D leaves a debt within D/10^10 + 0.00010075 of the exact one |
| `Annuity.LastResidual` | credit-service-go/internal/service/loan_service.go:436-503 | the last scheduled installment leaves at most 0.00010075 either way, and at most 0.00005 if the debt lost nothing when it was stored |
| `Annuity.EarlyFinishResidual` | credit-service-go/internal/service/loan_service.go:436-503 | an early finish discards no more than one payment's error |
| `Annuity.PaymentContracts` | credit-service-go/internal/service/loan_service.go:436-463 | a payment brings two debts no further apart |
| `Annuity.RoundedTracksExact` | credit-service-go/internal/service/loan_service.go:436-475 | after k payments the computed debt is within k single-payment errors of the exact schedule, and the stored debt within 0.00005 more |
| `Annuity.ZeroInstallmentExactly` | credit-service-go/internal/service/loan_service.go:461-463 | an installment rounds to nothing if and only if debt times factor is below 0.00005 |
| `LoanWitnesses.OrdinaryResidual` | credit-service-go/internal/service/loan_service.go:436-503 | a cash loan of 100000 over twelve months leaves a residual above 0.00007 |
| `LoanWitnesses.TinyLoanSticks` | credit-service-go/internal/service/loan_service.go:436-475 | a loan of 0.0002 over three months comes to a zero stored debt and a zero installment while still running |
| `Annuity.CalculateInterestRate` | credit-service-go/internal/service/interest_calculator.go:29-60 | the tier loop finds the tier, and both rates are the rounded monthly rates of the resulting percentages |
| `Annuity.TiersEndAtOneMillion` | credit-service-go/internal/service/interest_calculator.go:29-60 | all amounts above 1,000,000, those above 5,000,000 included, and no others, get the last rate, which is the lowest |
| `Annuity.PercentTable` | credit-service-go/internal/service/interest_calculator.go:29-77 | the yearly percentage by amount, type of loan and overdue status |
| `Annuity.RateIsTheTwelfth` | credit-service-go/internal/service/interest_calculator.go:29-60 | the monthly rate is a twelve-hundredth of it to within 10^-10, a variable rate adding half a point |
| `Annuity.RateIsUsable` | credit-service-go/internal/service/interest_calculator.go:29-77 | every rate the calculator picks is between 0.7 and 1.5 percent a month and has at most ten decimals |
| `Credit.LoanAfterSound` | credit-service-go/internal/service/loan_service.go:436-503 | paying the open installment keeps the loan's books to within 0.00005 for each time the debt was stored, the computed debt positive until closed, and the written-off residual within bounds |
| `Credit.EveryRunIsSound` | credit-service-go/internal/service/loan_service.go:407-507 | in every run in which no turn stops half-way through the record of a payment, paid installments equal the count, at most the period; exactly one installment is open until PAID_OFF and none after; OVERDUE only after two failed collections of one installment; amount = debt + repaid, or repaid + residual once closed, to within 0.00005 for each time the debt was stored |
| `Credit.StepKeepsExactly` | credit-service-go/internal/service/loan_service.go:407-507 | every event keeps all that if and only if it does not stop there |
| `Credit.TurnKeepsExactly` | credit-service-go/internal/service/loan_service.go:443-503 | an interrupted turn keeps it if and only if it does not stop after MarkPaid, nor after the loan update with another installment due |
| `Credit.HalfTurnStrands` | credit-service-go/internal/service/loan_service.go:443-503 | a turn that does stop there leaves the loan running for good: nothing is ever collected from it again |
| `Credit.ZeroDebtExactly` | credit-service-go/migrations/001_credit_service_schema.sql:43 | the row of a running loan holds a zero debt if and only if less than 0.00005 is owed |
| `Credit.FailedTurnEffect` | credit-service-go/internal/store/installment_store.go:146-172 | the first failure sets the retry and asks again in three days; from the second on the installment is late, asks again the next day, and its loan is OVERDUE; nothing else changes |
| `Credit.PaidTurnEffect` | credit-service-go/internal/service/loan_service.go:436-503 | what a collected installment does to its row and its loan, and the next installment with its amount, rate (surcharge included) and date, or the pay-off |
| `Credit.ApprovalEffect` | credit-service-go/internal/service/loan_service.go:171-243 | the loan and first installment an approval makes |
| `Credit.PaperworkEffect` | credit-service-go/internal/store/loan_request_store.go:167-188 | what is stored of a request, and that only pending ones are decided |
| `Credit.OverdueExactly` | credit-service-go/internal/service/loan_service.go:420-434 | in every run in which no failing turn stops between its two writes, a running loan is OVERDUE if and only if one of its installments has failed at least twice |
| `Credit.FailedTurnMarksExactly` | credit-service-go/internal/service/loan_service.go:420-434 | a failing turn keeps that if and only if it does not stop there |
| `Credit.ZeroInstallmentIsNeverPaid` | banking-core-service-go/internal/service/accounts.go:231-234 | a loan whose open installment rounded to nothing is never paid off, whatever happens, because a zero amount is never moved |
| `Credit.StatusesMoveForward` | credit-service-go/internal/store/loan_store.go:287-322 | in every run, interrupted turns included, no loan returns to ACTIVE, and a PAID_OFF loan never changes again |
| `Credit.OneLoanPerApproval` | credit-service-go/internal/store/loan_request_store.go:331-437 | in every run there are as many new loans as newly approved requests |
| `Credit.EveryLoanIsPaidOut` | credit-service-go/internal/service/loan_service.go:204-243 | in every serial run each loan has been paid out once and in full, every other payout belongs to an approval whose transaction then failed, and so the two lists agree if and only if none did |
| `Credit.FailedApprovalPaysTwice` | credit-service-go/internal/service/loan_service.go:204-243 | approving again after such a failure pays the client twice for one loan |
| `Credit.Service.DeclineRequest` | credit-service-go/internal/store/loan_request_store.go:167-188 | declines exactly the pending requests and changes nothing else |
| `Credit.Service.ApproveRequest` | credit-service-go/internal/service/loan_service.go:171-243 | a pending request of a positive amount is paid out first, and becomes a loan with its first installment only if the approving transaction succeeds |
| `Credit.Service.ProcessDueInstallments` | credit-service-go/internal/service/loan_service.go:407-507 | the loop over rows read once computes the sweep, up to the store call that fails |
| `Credit.Service.ProcessOne` | credit-service-go/internal/service/loan_service.go:413-503 | one turn marks a retry, an overdue loan, a payment with its stored debt and next installment, or the final write-off, up to the write that fails |
| `Exercise.AtMostOneExercise` | interbank-service/internal/service/otc_contracts.go:123-198 | however callers interleave, fail and crash, as long as the gate's claim is never released while a caller is between claim and finish or after a success, at most one caller is there and at most one exercise ever succeeds |
| `Exercise.SafeExactlyWithoutBadReopen` | interbank-service/internal/store/contracts.go:281-297 | in every state reached without such a release, the next step keeps everything that may follow safe if and only if it is not such a release |
| `Exercise.OwnReleaseIsBad` | interbank-service/internal/service/executor.go:401-420 | a caller's own release after a failed settlement leg always is one, since its revert is still to come |
| `Exercise.ReleaseLetsTwoSucceed` | interbank-service/internal/service/executor.go:369-424 | a concrete run: after a failed leg two callers hold the contract, the revert of one reopens the claim of the other, and two exercises succeed |
| `Exercise.RevertIsOwn` | interbank-service/internal/service/otc_contracts.go:176-185 | in runs without such a release only the reverting caller's own claim is reopened by a revert, and any other reopening finds nobody holding the contract; either way with no success so far |
| `Exercise.SequentialRun` | interbank-service/internal/service/otc_contracts.go:123-198 | what one uninterrupted call leaves in the row for every outcome of the calls it makes, with the gate's flip and its release, or past the gate |
| `Exercise.Service.ClaimExerciseByID` | interbank-service/internal/store/contracts.go:133-156 | claims exactly an ACTIVE row and tells a missing row from a lost race |
| `Exercise.Service.RevertExercising` | interbank-service/internal/store/contracts.go:162-169 | flips EXERCISING back to ACTIVE and touches no other row |
| `Exercise.Service.ClaimExerciseByNegotiation` | interbank-service/internal/store/contracts.go:249-279 | the gate flips ACTIVE or EXERCISING to EXERCISED, touches no other row and tells a missing row from a settled one |
| `Exercise.Service.ReleaseExerciseClaimByNegotiation` | interbank-service/internal/store/contracts.go:285-297 | flips EXERCISED back to ACTIVE and touches no other row |
| `Exercise.Service.CommitLocal` | interbank-service/internal/service/executor.go:350-424 | succeeds exactly when the gate, if consulted, answers and every leg and the status update do; gives the row back only if it owned the claim and a leg failed |
| `Exercise.Service.RunClaimed` | interbank-service/internal/service/otc_contracts.go:176-194 | from the claim to the finish: what the row holds for every outcome, and when it succeeds |
| `Exercise.Service.ExerciseContract` | interbank-service/internal/service/otc_contracts.go:123-198 | one call is the matching run of the protocol machine, and answers without error exactly when the exercise succeeded; the view shows EXERCISING when only the final update failed, whatever the row holds |
| `Retry.EveryRunIsMonotone` | interbank-service/internal/scheduler/retry.go:93-181 | with any number of schedulers holding stale snapshots, SENT and STUCK rows never change, retry counts never fall or exceed the maximum, and STUCK means the maximum is reached |
| `Retry.OneSchedulerBoundsResends` | interbank-service/internal/scheduler/retry.go:93-181 | with one scheduler whose writes succeed, no message is resent more than the maximum |
| `Retry.ResendsExactly` | interbank-service/internal/scheduler/retry.go:93-181 | with any number of schedulers, conflicts, failed writes and crashes, the resends of a message are exactly the retries its row gained, plus one if a resend delivered it, plus those whose outcome was not applied; the first two together never exceed the retries it had |
| `Retry.AppliedWritesBoundResends` | interbank-service/internal/scheduler/retry.go:93-181 | if every outcome was applied, a message is resent at most as often as it had retries left |
| `Retry.BackoffExactly` | interbank-service/internal/scheduler/retry.go:119-129 | a row is due 2, 4, 8, 16 or 32 seconds after its last attempt, by its retry count |
| `Retry.AttemptEffect` | interbank-service/internal/scheduler/retry.go:136-181 | which rows are picked, and what an attempt does to the row |
| `Retry.TwoSchedulersExceed` | interbank-service/internal/scheduler/retry.go:93-115 | two schedulers that fetch a row before either writes exceed the maximum: a concrete run |
| `Retry.LostWriteExceeds` | interbank-service/internal/scheduler/retry.go:136-181 | so does one scheduler that loses a write or crashes before it: two concrete runs |
| `Retry.Store.UpdateOptimistic` | interbank-service/internal/store/messages.go:144-159 | writes the row only if the version is unchanged, and moves version and snapshot together |
| `Retry.Store.TryOnce` | interbank-service/internal/scheduler/retry.go:136-181 | one attempt writes SENT, one more retry, or STUCK |
| `Retry.Store.TickOnce` | interbank-service/internal/scheduler/retry.go:93-115 | a sweep moves each row whose backoff has elapsed exactly one attempt on and leaves all others alone |
| `Lease.EveryRunIsSpaced` | banking-core-service-go/internal/service/shedlock.go:36-68 | in every run consecutive starts are at least min(lockAtMostFor, lockAtLeastFor) apart, and after an effective release nobody starts for lockAtLeastFor |
| `Lease.LeaseIsExclusive` | banking-core-service-go/internal/service/shedlock.go:36-68 | nothing anyone else does, late releases included, alters an unexpired lease |
| `Lease.MutualExclusion` | banking-core-service-go/internal/service/shedlock.go:36-68 | in every run at most one instance is inside the job within its lease; if jobs end before their leases, at most one is inside |
| `Lease.ReleaseEffect` | banking-core-service-go/internal/service/shedlock.go:57-65 | a release takes effect exactly when its instance still holds the row |
| `Lease.GapKeptExactly` | banking-core-service-go/internal/service/shedlock.go:36-68 | in every reachable state where an instance has left the job at e and still is the row's holder, the next run starts at e + lockAtLeastFor or later whatever follows if and only if the lease outlasts that time, or that time has come and nobody holds a stamp from within the gap; once the release was sent, if and only if it took effect or one of these holds |
| `Lease.PromptReleaseKeepsGap` | banking-core-service-go/internal/service/shedlock.go:57-65 | in particular a release that arrives before its lease is over keeps the gap |
| `Lease.LateReleaseLosesGap` | banking-core-service-go/internal/service/shedlock.go:57-65 | a release overtaken by the next acquisition has lost it: a concrete run |
| `Lease.DistributedLock.TryAcquire` | banking-core-service-go/internal/service/shedlock.go:36-68 | takes the row exactly when it is absent or expired |
| `Lease.DistributedLock.ReleaseLock` | banking-core-service-go/internal/service/shedlock.go:36-68 | shortens the lease only if the row is still the caller's |
| `Lease.DistributedLock.Try` | banking-core-service-go/internal/service/shedlock.go:36-68 | an uninterrupted call runs the job or not at all, and then blocks everyone until lockAtLeastFor after its end |
| `Inbound.ExecutedExactly` | interbank-service/internal/api/inbound.go:63-266 | over any sequence of messages the executor runs for a key exactly as often as executed replies of it failed to be cached, plus once if its cached reply came from the executor; so at most once if and only if none failed, or one did and none was cached since |
| `Inbound.FailedInsertRunsTwice` | interbank-service/internal/api/inbound.go:243-256 | the failed insert really lets it run twice |
| `Inbound.CacheIsStable` | interbank-service/internal/api/inbound.go:63-266 | a cached reply is never replaced |
| `Inbound.RepliesRepeat` | interbank-service/internal/api/inbound.go:63-266 | every later message of the same sender, key and type gets the first reply's exact status and body and changes nothing |
| `Inbound.FirstReply` | interbank-service/internal/api/inbound.go:143-266 | status and body of the first reply in every case, carrying exactly the executor's answer, and that the cached row holds the same |
| `Inbound.RejectionTexts` | interbank-service/internal/api/inbound.go:79-141 | what each rejected message is told |
| `Inbound.RejectsLeaveNoTrace` | interbank-service/internal/api/inbound.go:79-141 | a foreign routing number, an over-long key, a key reused for another type or an unknown type is answered 400 (500 if the cache cannot be read) and changes neither cache nor executor |
| `Inbound.Handler.PostMessage` | interbank-service/internal/api/inbound.go:63-209 | the handler computes the reply function and its effect on the cache |
| `Inbound.Handler.PersistCache` | interbank-service/internal/api/inbound.go:243-266 | inserts one row, or none when the insert fails |
| `Inbound.Handler.PersistAndReturnError` | interbank-service/internal/api/inbound.go:234-240 | caches the same body it answers with |
| `Luhn.IsValid` | banking-core-service-go/internal/card/card.go:12-38 | the right-to-left loop decides the Luhn rule for every string |
| `Luhn.SumOfChanged` | banking-core-service-go/internal/card/card.go:19-36 | a digit counts plain in odd and doubled in even places from the right |
| `Luhn.CalculateCheckDigit` | banking-core-service-go/internal/card/card.go:40-48 | finds the one valid digit exactly when the payload is digits not all zero |
| `Luhn.SingleErrorIsCaught` | banking-core-service-go/internal/card/card.go:12-38 | every change of one character of a valid number is rejected |
| `Luhn.SwapIsCaughtUnlessZeroNine` | banking-core-service-go/internal/card/card.go:12-38 | a swap of two adjacent distinct digits is accepted if and only if they are 0 and 9 |
| `Luhn.CheckDigitIsUnique` | banking-core-service-go/internal/card/card.go:40-48 | a payload extended by one character is valid if and only if the payload is digits not all zero and the character is its completion |
| `Wire.IdRoundTrip` | interbank-service/internal/protocol/types.go:23-26 | identifiers survive encoding and decoding |
| `Wire.AccountRoundTrip` | interbank-service/internal/protocol/tx_account.go:61-112 | all three account variants survive |
| `Wire.AssetRoundTrip` | interbank-service/internal/protocol/asset.go:64-137 | all three asset variants survive |
| `Wire.PostingRoundTrip` | interbank-service/internal/protocol/types.go:70-115 | a posting survives exactly when it names an account and an asset, and is otherwise refused as of unknown type |
| `Wire.TxRoundTrip` | interbank-service/internal/protocol/types.go:121-128 | a transaction with any number of postings survives exactly when all of them do, whichever optional texts are left out |
| `Wire.MessageRoundTrip` | interbank-service/internal/protocol/envelope.go:40-96 | decoding the encoding of a message gives it back if and only if its body matches its type and its postings are complete |
| `Wire.DecodedIsWellTyped` | interbank-service/internal/protocol/envelope.go:40-78 | whatever is accepted is well typed and survives re-encoding |
| `Wire.EncodingsDiffer` | interbank-service/internal/protocol/envelope.go:81-96 | different well-typed messages have different encodings |
| `Wire.AccountForms` | interbank-service/internal/protocol/tx_account.go:18-24 | the documented form of each account variant, both ways |
| `Wire.AssetForms` | interbank-service/internal/protocol/asset.go:18-26 | the documented form of each asset variant, both ways |
| `Wire.PostingForm` | interbank-service/internal/protocol/types.go:93-115 | the form of a posting, both ways |
| `Wire.EnvelopeForms` | interbank-service/internal/protocol/envelope.go:79-96 | the form of commit and rollback messages, both ways |
| `Wire.TransactionForm` | interbank-service/internal/protocol/types.go:121-128 | the fields of a new transaction, its postings in order |
| `Wire.AbsentParts` | interbank-service/internal/protocol/envelope.go:40-78 | what absent, null and wrong values decode to |
| `Wire.PostingReceiver.UnmarshalJSON` | interbank-service/internal/protocol/types.go:70-91 | fills the receiver with the decoded posting, or fails leaving the asset as it was |
| `Wire.MessageReceiver.UnmarshalJSON` | interbank-service/internal/protocol/envelope.go:40-78 | fills the receiver with the decoded message, or fails leaving the body as it was |
| `Proto.PostingSurvives` | interbank-service/internal/grpc/mapper.go:46-126 | mapping a posting to a protocol buffer and back gives it back if and only if it names an account and an asset and its routing numbers and option amount fit in 32 bits |
| `Proto.ReceivedFits` | interbank-service/internal/grpc/mapper.go:109-126 | whatever arrives fits and survives being sent on |
| `Proto.ProtoForms` | interbank-service/internal/grpc/mapper.go:285-350 | which field carries what |
| `Proto.AbsentMessages` | interbank-service/internal/grpc/mapper.go:22-126 | what absent messages, unset variants and bad amounts map to |
| `Proto.PostingsSurvive` | interbank-service/internal/grpc/mapper.go:130-149 | a list of postings of any length survives if and only if each of them fits |
| `Proto.Truncate` | interbank-service/internal/grpc/mapper.go:217-222 | conversion to 32 bits keeps a number exactly when it fits |
| `Proto.MapProtoTx` | interbank-service/internal/grpc/mapper.go:130-149 | the loop maps all postings, or fails with the first error keeping those before it |
| `Proto.MapVoteToProto` | interbank-service/internal/grpc/mapper.go:233-247 | the loop maps every reason in order |
| `Proto.CodeTable` | interbank-service/internal/grpc/mapper.go:233-282 | the code of each vote and reason name |
| `Proto.VotesStayApart` | interbank-service/internal/grpc/mapper.go:233-282 | different votes with known names and fitting postings stay different |

## Left out

- Fractions of a cent in runs: requests may carry them, and the reservation and loan columns have four decimals; `FineAmounts` says what one such amount does, the runs of the ledger are in whole cents.
- Letter case: currency codes and account numbers are compared exactly; the code stores them in canonical form and sometimes compares ignoring case.
- Identifiers: generated ids are row positions, a client's interbank name is its number, and the transaction-id columns of reservations are not modelled.
- Payment rows: recordPayment and the payment table are not modelled; the fee job's audit rows are.
- Fund reservations and the fee job read without locks, so they are single atomic steps here.
- One-sided exchange buy and sell, crediting and debiting the bank alone, and the quote of a cross-currency transfer (a parameter).
- The order of rows in the fee query, and which of several bank rows the unordered query returns: the row is a parameter.
- Concurrent loan confirmations: the payout is made before the conditional status flip, so only serial ones are modelled; powers are exact, and months are a parameter.
- Credit.Service.ProcessDueInstallments: the list holds distinct due unpaid rows of existing loans, as its query and the foreign key provide.
- The reservation, prepare and partner steps of an exercise beyond their success or failure; the resolution of a negotiation id to its contract.
- Retry.OneSchedulerBoundsResends: is about one scheduler whose own updates reach the database; `Retry.ResendsExactly` covers the other cases.
- Concurrent deliveries of one inbound message, the partner's authentication, and the contract recorder called on commit.
- JSON text, duplicate or differently cased keys, invalid UTF-8 and decimal text: JSON is a tree and the decimal library is any pair of functions in which parsing undoes formatting.
- Card brands, masks and fees, circuit breaker, one-time passwords, paging, account-number generation, authentication, messaging, trading, analytics and the chat bot: they would only add easy members.
