# Rewards platform: wallet ledger and redemption workflow in Dafny

This project models the core of a rewards platform. Users earn points and
hold a real-money wallet. They spend either on catalog products. The model
covers:

- the wallet service: quantising amounts to cents, finding or creating a
  wallet, pending deposits, completing a deposit once, debits, refunds, and
  the validation and pending-deposit part of opening a provider checkout;
- the redemption service: the checks on availability and stock, paying in
  points or money, recording the redemption, and the notification text;
- the user points methods, catalog price validation, the wallet and
  redemption model defaults and their display strings;
- registration of an account and its welcome notification.

Money is modelled as integer cents. A decimal input is a `Decimal(mantissa,
scale)` with value `mantissa / 10^scale`. `Quantize` rounds it to cents
half away from zero, as `ROUND_HALF_UP` does.

The database is one object, `Database.Db`. Its tables are fields that the
services reassign:

- Wallets are keyed by their owner's id, because the relation is one-to-one.
- Transactions are kept in creation order. "The first row under newest-first
  ordering" is therefore the matching row with the highest index.
- `clock` stands for the current time. Every stamp taken advances it.

Each service operation is a method. Its contract ties the new tables and its
result to a pure step function of the old tables (`DebitStep`, `RedeemStep`,
…). Lemmas then prove what each step promises. The central invariant is that
the ledger stays *balanced*: every wallet balance equals the sum of the
amounts of its wallet's COMPLETED transactions. Every service operation is
proved to preserve it. `mark_completed` on its own does not: it stamps a
row without crediting the wallet, so marking a pending deposit of 1.00
leaves the wallet 1.00 short of its ledger
(`WalletModels.MarkingAloneUnbalances`). `Database.Db.MarkCompleted`
therefore promises the invariant only for a row that was already completed
or moves no money. No code in the repository calls `mark_completed`;
`complete_deposit` settles rows itself and credits the wallet.

The following inputs become parameters:

- the configured currency setting (`currencySetting`; empty means unset);
- the payment provider's secret key (`secretKey`) and the session the
  provider answers (`session`);
- the configured password validators (`validate`, the messages they report).

A `transaction.atomic` block that raises is modelled by its effect: a
failing operation leaves every table as it was.

`debit` returns the committed transaction. `execute` reads the money spent
from that transaction's amount when it is negative. Otherwise it falls back
to the product price. A successful debit always stores a negative amount, so
the fallback is never taken. `RewardsServices.RedeemWithMoney` proves that
the money recorded equals the price. The model keeps both branches as the
code has them.

`create_pending_deposit` does not check the sign of the amount, and
`complete_deposit` credits whatever amount the pending row holds.
`WalletServices.DepositFlowCredits` proves that a fresh session, recorded and
then completed, moves the balance by exactly the quantised amount. A
negative amount therefore lowers the balance, possibly below zero. The
checkout rejects amounts that are not positive before it records a pending
deposit, so only a direct caller can reach this.

## Model

| member | source | states |
|---|---|---|
| WalletServices.Quantize | backend/apps/wallet/services.py:40-43 | an amount with at most two decimals is kept exactly (scaled to cents); a longer one is rounded to the nearest cent, ties away from zero |
| WalletServices.RoundsHalfUpUnique | backend/apps/wallet/services.py:40-43 | half-up rounding has exactly one result, so `Quantize` is the rounding and not merely a rounding |
| WalletServices.QuantizeTwoPlaces | backend/apps/wallet/services.py:40-43 | quantising an amount that already has two decimals gives it back unchanged |
| WalletServices.QuantizeExamples | backend/apps/wallet/services.py:40-43 | 100.005 rounds to 100.01, -100.005 to -100.01, and 0.004 to 0.00 |
| WalletServices.ConfiguredCurrency | backend/apps/wallet/services.py:37 | the default currency is the configured setting when it is set, and "EUR" otherwise |
| WalletServices.FindOwn | backend/apps/wallet/services.py:69-80 | a lookup by wallet and reference reports no match exactly when no row matches, the one index when exactly one row matches, and several otherwise |
| WalletServices.LatestDeposit | backend/apps/wallet/services.py:90-98 | finds a deposit with the session reference exactly when one exists, and it is the newest such row |
| WalletServices.WithPaymentIntent | backend/apps/wallet/services.py:110-113 | the payment intent is added only when it is given, non-empty and not already recorded; an existing entry is never overwritten |
| WalletServices.PendingDepositStep | backend/apps/wallet/services.py:58-81 | the pending-deposit step: get_wallet, then get-or-create of the row; when it raises, only the wallet get_wallet created remains |
| WalletServices.CompleteDepositStep | backend/apps/wallet/services.py:83-119 | the completion step on the newest deposit with the session id; when it raises, nothing changes |
| WalletServices.DebitStep | backend/apps/wallet/services.py:121-153 | the debit step; when it raises, nothing changes (a wallet get_wallet created is rolled back) |
| WalletServices.RefundStep | backend/apps/wallet/services.py:155-182 | the refund step; when it raises, nothing changes |
| WalletServices.WithWalletKeepsLedger | backend/apps/wallet/services.py:45-55 | an existing wallet is returned untouched; a missing one is created with balance 0.00 in the default currency; the ledger stays balanced |
| WalletServices.PendingDepositShape | backend/apps/wallet/services.py:66-81 | get-or-create on (wallet, session id): the user's wallet exists afterwards and no existing wallet changes; a row is appended exactly when no row of the wallet carries the session id, and it is the returned PENDING deposit of the quantised amount with the wallet's currency, the description and the metadata (empty by default); a single matching row is returned as it is, and several raise; in both cases the rows stay unchanged |
| WalletServices.PendingDepositKeepsLedger | backend/apps/wallet/services.py:66-81 | a pending deposit keeps the ledger well formed and balanced, because a PENDING row moves no balance |
| WalletServices.PendingDepositIdempotent | backend/apps/wallet/services.py:69-80 | a second call with the same session id returns the same result and changes nothing, whatever amount, description and metadata it passes |
| WalletServices.CompleteDepositKeepsLedger | backend/apps/wallet/services.py:89-119 | an unknown session raises and changes nothing; a completed deposit is returned unchanged; otherwise exactly its amount is credited to its own wallet, and the row becomes COMPLETED, stamped now, with the payment intent set by default in its metadata; no other column and no other row or wallet changes |
| WalletServices.DepositFlowCredits | backend/apps/wallet/services.py:58-119 | a fresh session recorded as pending and then completed succeeds and moves the user's balance by exactly the quantised amount, whatever its sign |
| WalletServices.CompleteDepositCreditsOnce | backend/apps/wallet/services.py:99-104 | completing the same session again returns the same row and credits nothing |
| WalletServices.LatestDepositIgnoresStatus | backend/apps/wallet/services.py:90-98 | settling a row does not change which deposit the session lookup finds |
| WalletServices.DebitKeepsLedger | backend/apps/wallet/services.py:128-153 | rejects a non-positive amount and an amount above the balance, changing nothing; succeeds exactly otherwise, lowering the balance by the quantised amount (never below zero) and appending one COMPLETED redeem row of minus that amount |
| WalletServices.RefundKeepsLedger | backend/apps/wallet/services.py:162-182 | rejects a non-positive amount, changing nothing; otherwise raises the balance by the quantised amount, creating the wallet if needed, and appends one COMPLETED refund row of that amount |
| WalletServices.RefundThenDebitEmptiesWallet | backend/apps/wallet/services.py:121-182 | from an empty ledger, a refund of 150.00 followed by a debit of 150.00 leaves balance 0.00 with a refund row and a redeem row |
| WalletServices.TaggedMetadata | backend/apps/wallet/services.py:202-203 | the checkout metadata carries the user's id as a string under "user_id" and keeps every other key of the caller's metadata |
| WalletServices.WalletService.constructor | backend/apps/wallet/services.py:35-37 | the service is bound to its user, and its default currency is the configured one or "EUR" |
| WalletServices.WalletService.GetWallet | backend/apps/wallet/services.py:45-55 | returns the user's wallet, creating it with the default currency if it is missing; the store stays valid |
| WalletServices.WalletService.CreatePendingDeposit | backend/apps/wallet/services.py:58-81 | the new tables and the result are those of the pending-deposit step; the store stays valid |
| WalletServices.WalletService.CompleteDeposit | backend/apps/wallet/services.py:83-119 | the new tables and the result are those of the completion step; the clock advances only when a row is settled |
| WalletServices.WalletService.Debit | backend/apps/wallet/services.py:121-153 | the new tables and the result are those of the debit step; the clock advances only on success; the store stays valid |
| WalletServices.WalletService.Refund | backend/apps/wallet/services.py:155-182 | the new tables and the result are those of the refund step; the clock advances only on success; the store stays valid |
| WalletServices.WalletService.CreateCheckoutSession | backend/apps/wallet/services.py:185-232 | rejects a non-positive amount, then a missing provider key, sending nothing and changing nothing; otherwise asks the provider for the amount in cents in the lower-cased currency with the tagged metadata, and records the pending deposit under the session id |
| WalletModels.PostKeepsLedger | backend/apps/wallet/services.py:139-151 | moving a wallet's balance by an amount and appending a COMPLETED row of that amount keeps the ledger balanced |
| WalletModels.SettleKeepsLedger | backend/apps/wallet/services.py:106-117 | crediting a row's amount to its wallet while that row turns from not COMPLETED to COMPLETED keeps the ledger balanced |
| WalletModels.ColumnDefaults | backend/apps/wallet/models.py:14-49 | a new wallet holds 0.00 EUR, and a new transaction is PENDING |
| WalletModels.MarkedCompleted | backend/apps/wallet/models.py:72-76 | the row ends COMPLETED; a completed row is left as it is; otherwise only the status and the completion stamp change |
| WalletModels.MarkCompletedIdempotent | backend/apps/wallet/models.py:72-76 | marking a row completed twice is the same as marking it once: the second call does not re-stamp |
| WalletModels.Display | backend/apps/wallet/models.py:68-70 | the display opens with the owner and the type label and closes with the currency; the text between them shows "-" exactly for a debit and reads back to the amount |
| WalletModels.SignedAmountRoundTrip | backend/apps/wallet/models.py:68-70 | the displayed sign is "-" exactly for negative amounts, and the signed display reads back to the amount |
| Database.Db.MarkCompleted | backend/apps/wallet/models.py:72-76 | only row i changes, to its marked form, stamped with the current time, and the clock advances; the ledger stays balanced when the row was already completed or moves no money |
| WalletModels.MarkingAloneUnbalances | backend/apps/wallet/models.py:72-76 | marking a balanced ledger's row that was not completed and moves money, without crediting its wallet, leaves the ledger unbalanced |
| Database.Db.PostCompleted | backend/apps/wallet/services.py:139-151 | the wallet moves by the amount and exactly one COMPLETED row, stamped now in the wallet's currency, is appended; the store stays valid |
| Database.Db.Settle | backend/apps/wallet/services.py:106-117 | the row's wallet is credited with the row's amount, the row becomes COMPLETED, stamped now, with the given metadata; the store stays valid |
| Database.Db.InsertRedemption | backend/apps/rewards/services.py:62-70 | appends exactly the given redemption and keeps every foreign key valid |
| Database.Db.InsertNotification | backend/apps/rewards/services.py:72-75 | appends one unread notification stamped with the current time, and advances the clock |
| RewardsServices.BuildNotificationMessage | backend/apps/rewards/services.py:78-87 | the message starts "Has canjeado <product> por "; then comes "<points> puntos." when points were spent, and otherwise "<money> <currency>." |
| RewardsServices.PointsAndMoneyPhrasingsDiffer | backend/apps/rewards/services.py:78-87 | a message about points never equals a message about money for the same product |
| RewardsServices.PointsMessageDeterminesPoints | backend/apps/rewards/services.py:81-84 | two points messages for one product are equal only when the points are |
| RewardsServices.MoneyMessageDeterminesAmount | backend/apps/rewards/services.py:85-87 | two money messages for one product are equal only when the amount and the currency are |
| RewardsServices.PayStep | backend/apps/rewards/services.py:38-57 | the payment step on the stored row: points deducted, or the wallet debited with insufficient balance translated; a failure leaves the store as it was |
| RewardsServices.Conclude | backend/apps/rewards/services.py:59-75 | the step after the payment: product save with its validation, redemption row and notification; a rejected save leaves the store as it was before the payment |
| RewardsServices.RedeemStep | backend/apps/rewards/services.py:26-76 | the whole `execute` step: checks on the passed product, then the transaction block; a failure leaves the store as it was |
| RewardsServices.RedeemStored | backend/apps/rewards/services.py:33-75 | the transaction block of `execute`: row fetch, stock re-check, payment and the rest; a failure leaves the store as it was |
| RewardsServices.RedeemFailureChangesNothing | backend/apps/rewards/services.py:26-70 | a redemption that fails leaves points, ledger, stock, redemptions, notifications and clock as they were |
| RewardsServices.RedeemRejections | backend/apps/rewards/services.py:27-53 | checks in order: inactive product, no stock on the passed product, missing row, no stock on the stored row, too few points, insufficient balance, each with its own message |
| RewardsServices.RedeemSuccessRecordsOnce | backend/apps/rewards/services.py:59-75 | a success takes one unit of stock and appends exactly one COMPLETED redemption (notes default to "") and one unread notification with the matching message |
| RewardsServices.RedeemWithPoints | backend/apps/rewards/services.py:38-44 | a points product is redeemed exactly when its cost is set, positive and affordable; then points drop by the cost and the ledger is untouched |
| RewardsServices.RedeemWithMoney | backend/apps/rewards/services.py:45-57 | a money product is redeemed exactly when its price is positive and covered by the wallet; then the wallet is debited as a debit of the price would debit it, and points are untouched |
| RewardsServices.RedeemConserves | backend/apps/rewards/services.py:38-70 | points plus points recorded as spent, balance plus money recorded as spent, and stock plus redemption count are all unchanged by a redemption |
| RewardsServices.PayKeepsLedger | backend/apps/rewards/services.py:38-57 | the payment part keeps the ledger well formed and balanced |
| RewardsServices.RedeemKeepsLedger | backend/apps/rewards/services.py:26-76 | a redemption keeps the ledger well formed and balanced |
| RewardsServices.RedeemProductService.constructor | backend/apps/rewards/services.py:22-24 | the service is bound to its user and product |
| RewardsServices.RedeemProductService.Pay | backend/apps/rewards/services.py:38-57 | the new points, ledger and clock and the result are those of the payment step on the stored product |
| RewardsServices.RedeemProductService.Record | backend/apps/rewards/services.py:59-75 | the new stock, redemptions, notifications and clock and the result are those of the concluding step |
| RewardsServices.RedeemProductService.RedeemStoredRow | backend/apps/rewards/services.py:33-75 | on the stored product row, the new state and the result are those of the transaction block's step (row fetch, stock re-check, payment, save, records); the store stays valid |
| RewardsServices.RedeemProductService.Execute | backend/apps/rewards/services.py:26-76 | the new state and the result are those of the redemption step, and the store stays valid |
| RewardsServices.GenerateWelcomeNotification | backend/apps/rewards/services.py:90-96 | appends exactly one unread welcome notification for the user, stamped now |
| RewardsModels.CostDisplay | backend/apps/rewards/models.py:41-46 | the cost text inside the parentheses; what it shows is stated by the four lemmas below |
| RewardsModels.Display | backend/apps/rewards/models.py:40-47 | user, " -> ", product, then the cost in parentheses, which reads "sin costo" exactly when neither points nor money were spent |
| RewardsModels.CostDisplayComposition | backend/apps/rewards/models.py:40-47 | the cost shows the points part, then the money part, joined by ", ", each only when spent |
| RewardsModels.NoCostShownExactlyWhenFree | backend/apps/rewards/models.py:46 | "sin costo" is shown exactly when neither points nor money were spent |
| RewardsModels.PointsShownExactlyWhenSpent | backend/apps/rewards/models.py:42-43 | the display opens with "<points> pts" exactly when points were spent |
| RewardsModels.MoneyShownExactlyWhenSpent | backend/apps/rewards/models.py:44-45 | a money amount is shown exactly when money was spent |
| RewardsModels.DefaultRedemptionIsFree | backend/apps/rewards/models.py:18-32 | a redemption with default columns is COMPLETED, spent nothing, and shows "sin costo" |
| UserModels.PointsAfterAdd | backend/apps/users/models.py:15-21 | a negative amount is refused; otherwise the points grow by exactly the amount |
| UserModels.PointsAfterDeduct | backend/apps/users/models.py:23-31 | a negative amount or one above the balance is refused; otherwise the points drop by exactly the amount |
| UserModels.DeductThenAddRestores | backend/apps/users/models.py:15-31 | adding back an amount just deducted restores the points |
| UserModels.AddThenDeductRestores | backend/apps/users/models.py:15-31 | deducting an amount just added restores the points |
| UserModels.User.constructor | backend/apps/users/models.py:9 | a new user starts with 0 points |
| UserModels.User.AddPoints | backend/apps/users/models.py:15-21 | the points become those of the add rule, or stay unchanged with its error message |
| UserModels.User.DeductPoints | backend/apps/users/models.py:23-31 | the points become those of the deduct rule, or stay unchanged with its error message |
| CatalogModels.CleanError | backend/apps/catalog/models.py:71-86 | the error `clean` raises, if any, is attached to the price field of the product's own type |
| CatalogModels.CleanAcceptsExactly | backend/apps/catalog/models.py:71-86 | validation passes exactly when the price of the product's own type is set and positive |
| CatalogModels.CleanEstablishesConsistency | backend/apps/catalog/models.py:71-87 | after validation passes, exactly the price of the product's type is set, and cleaning again changes nothing |
| CatalogModels.Product.constructor | backend/apps/catalog/models.py:32-53 | a new product is a points product with no prices, no stock and active |
| CatalogModels.Product.RequiresExactlyOne | backend/apps/catalog/models.py:89-95 | every product requires exactly one of points and money |
| CatalogModels.Product.Clean | backend/apps/catalog/models.py:71-87 | on an error nothing changes; otherwise the other price is cleared and the prices are consistent with the type |
| UserServices.UsernameCheckedFirst | backend/apps/users/services.py:15-24 | a taken username is reported first, then a taken email; registration is refused exactly when one of them is taken or the password fails |
| UserServices.SecondRegistrationRefused | backend/apps/users/services.py:15-16 | once an account is stored, registering its username again is refused |
| UserServices.RegisterUser | backend/apps/users/services.py:14-31 | a refusal changes nothing and returns its message; a success stores one fresh user with 0 points under a new id and gives it one welcome notification |

## Left out

- Concurrency is not modelled. This covers row locks (`select_for_update`), `F()` expressions and isolation. An atomic block is modelled as all-or-nothing, single-threaded.
- The payment provider call and its webhook are not modelled. The provider's session is a parameter of `CreateCheckoutSession`.
- Float and integer inputs to `_quantize_amount` (`Decimal(str(x))`) are not modelled. Inputs are exact decimals with a non-negative scale.
- Decimal precision and the `max_digits` limits of the amount columns are not modelled. Amounts are unbounded.
- The other model validators are not modelled: blank fields, maximum lengths, slug uniqueness and slug generation. `clean` is modelled for the two price fields only.
- Model `__str__` methods other than those of transactions and redemptions are not modelled.
- `create_user`'s email normalisation, the NFKC normalisation of the username, password hashing and the empty-username error are not modelled. Usernames are compared as given.
- Timestamps other than `completed_at` and the notification stamp are not modelled (`created_at`, `updated_at`). The clock is a counter.
- `get_wallet`'s `for_update` flag is not modelled, because it only takes a row lock.
- `WalletServices.WalletService.CreateCheckoutSession`: the checkout mutates the caller's metadata dictionary in place with `update`. The model passes a tagged copy instead.
- `RewardsServices.RedeemProductService.Execute`: the product passed to the service is treated as a snapshot. The stored row is a separate object, and the passed object's stock is not refreshed.
- `Lower` folds only ASCII letters. The currency codes the platform uses are ASCII.
