# Stripe Connect pledge transactions, modelled in Dafny

This project models the pledge-transaction lifecycle of the crowdfunding
component's Stripe Connect payment plug-in (`plgCrowdfundingPaymentStripeConnect`).
The lifecycle has four parts:

- **checkout** validates the posted pledge. It creates a Stripe customer from the card
  token, stores a `pending` transaction under a fresh `txn_id`, adds the pledge to
  the project's funding total, updates the reward and closes the payment session.
- **storeTransaction** is the idempotency gate. A row that is already `completed` is
  never rebound. Any other row is bound and stored, and the funds are added.
- **capture** makes a destination charge to the project owner's connected account,
  minus the platform fee. The row is then `completed` and filed under the charge id.
  A row without a customer id is `canceled` instead.
- **void** deletes the Stripe customer when there is one and a secret key is set. It
  then clears the service data and cancels the row.

Modules:

- `Records` (records.dfy) holds the values: transaction rows, the transaction data
  array, the payment session, the outcomes of Stripe and component calls, and the
  administrator messages.
- `Lifecycle` (lifecycle.dfy) states each operation as a pure function over a
  `Ledger`. A `Ledger` holds the rows keyed by `txn_id`, the funds per project and
  the next row id. This module also proves that the table invariant `Valid` holds
  after every operation.
- `Engine` (engine.dfy) holds the class `StripeConnect`. Its fields are the table, the
  funds and the next id. Its methods update them step by step, as the plug-in does.
  Each method is proved equal to its `Lifecycle` function and keeps `Valid()`.
- `LifecycleProperties` (properties.dfy) relates several calls. It covers the gate,
  the half-done capture, repeated capture and void, and two worked scenarios. It also
  has inductive lemmas over any sequence of calls: the invariant holds, funds never
  decrease, only checkout moves funds, and rows are never deleted.

Money is an integer count of minor units. Every call into Stripe, the reward update
and the session close is a parameter that says what the call did: it returned a
value or raised. The Stripe keys, the owner's payout record and access token, the
fee, the payment session and the currency are input values. For capture and void,
one more parameter (`raisedAt`) names the read that raised, if any. For capture this
is the keys, payout record, token, fee or transaction row. For void it is the
transaction row or the keys. The source catches that raise as a failed capture or void.
Each operation also returns the list of Stripe calls it made, so a property such as
"no charge is created" can be stated.

Behaviours of the code a reader may not expect:

- A capture stores the row as `completed` before it deletes the customer. When the
  deletion raises, the error is reported but the row stays completed and keeps its
  customer id. A second capture of that row charges the same customer again (`HalfDoneCaptureChargesAgain`).
- A void without a secret key is not fatal. It only logs, then clears the service data
  and cancels the row anyway.
- `storeTransaction` adds the funds on every call whose row is not completed.
  Re-storing a pending row adds them again (`PendingRestoreAddsFundsAgain`).
- Capture moves the completed row to the charge id. The gate therefore never finds a
  completed row under the original `txn_id` (`CaptureReopensOriginalTxnId`).
- Capturing an already completed row cancels it, because its customer id was cleared
  (`RecaptureCancelsCompleted`).
- Void never checks the status. Voiding a captured row cancels the completed row and
  erases the charge references in its service data (`VoidCancelsCaptured`).
- Checkout checks no reward before it stores. The stored funds are written directly,
  with no database transaction around them.

## Model

| member | source | states |
|---|---|---|
| `Records.CustomerId` | stripeconnect.php:438 | a customer id stored under `customer_id` is returned as it is; a non-empty result is always that stored value, and a missing or null one reads as empty |
| `Lifecycle.PrepareTransactionData` | stripeconnect.php:636-668 | None exactly when the session's project id is 0 or the `txn_id` is falsy; otherwise pending data with the item's amount, the given currency, the session's project and investor, the item owner as receiver, reward id 0 for an anonymous session and the session's reward otherwise, the given date, and the plug-in's provider name and alias |
| `Lifecycle.NormaliseExtraData` | stripeconnect.php:701-706 | extra data becomes null exactly when it is absent or empty, and is kept otherwise |
| `Lifecycle.Store` | stripeconnect.php:682-723 | a completed row under the `txn_id` makes it a no-op returning None; otherwise only that row changes, it carries every bound field, an existing row keeps its id, parent id, fee and (without new service data) its service data, a new row gets the next id, the project's funds grow by exactly `txn_amount`, and the data is returned with the row id and normalised extra data |
| `Lifecycle.StorePreservesValid` | stripeconnect.php:708-713 | storing keeps every row under its own `txn_id` with a unique positive id |
| `Lifecycle.ChargeServiceData` | stripeconnect.php:480-486 | after a capture the customer id is cleared and `charge.id`, `charge.object`, `charge.customer`, `charge.destination`, `charge.balance_transaction` hold the response's values; the keys are exactly the old ones minus `customer_id` plus those five, and every other key keeps its value |
| `Lifecycle.Capture` | stripeconnect.php:374-534 | funds never change; reads happen in source order: a raise while reading keys, payout record, token, fee or row is the caught "capturing unsuccessfully" error, a missing client id is the configuration error, and a missing payout record or token is the no-payout error; each calls nothing and changes nothing; an empty customer id creates no charge, cancels the row and warns; otherwise one charge for the row's amount and customer is requested; a raised charge is an error and a charge without id or capture is a warning, each making that one call and changing nothing; a charge id held by another row is an error with that one call and nothing changed; success (captured, id free, customer deleted) completes the row under the charge id with parent = original `txn_id`, the fee, the response in extra data and the charge references in service data; a captured charge on a free id whose customer deletion raises always leaves the row changed with an error, and an error with a changed row is exactly that half-done state: completed row stored, customer deletion raised, service data untouched |
| `Lifecycle.CapturePreservesValid` | stripeconnect.php:470-474 | moving the completed row to the charge id keeps the table invariant |
| `Lifecycle.Void` | stripeconnect.php:564-624 | funds never change; a raise while loading the row, or while reading the keys when a customer id is present, is the caught "void unsuccessfully" error with no call and no change; otherwise the customer is deleted exactly when a customer id is present and the secret key is truthy; an error happens exactly when a read or that deletion raises, and then nothing changes; otherwise the row, if any, gets empty service data and status canceled and nothing else changes |
| `Lifecycle.VoidPreservesValid` | stripeconnect.php:599-605 | resetting and canceling a row keeps the table invariant |
| `Lifecycle.Checkout` | stripeconnect.php:180-343 | a non-POST request, a falsy token, rejected data or an unknown project gives the generic error with no call and no change; otherwise one customer is created with the `txn_id` as metadata; a card error returns its message verbatim and changes nothing; the table changes only when a customer with an id is created and the gate lets the row through; then only that row and the project's funds change; the row carries the prepared data (pending, the session's investor and project, the item owner as receiver, item amount, currency, reward, date, provider) with the customer id as its service data; a new row gets the next id, an empty parent id and fee 0, and the next id grows by one; an existing pending row keeps its id, parent id and fee; the funds grow by the item amount; the share redirect happens exactly when also the reward update and closing the session return; a positive reward the update does not return is reset to 0 in the data |
| `Lifecycle.CheckoutPreservesValid` | stripeconnect.php:289-300 | a checkout keeps the table invariant |
| `Engine.StripeConnect.StoreTransaction` | stripeconnect.php:682-723 | loads by `txn_id`, returns None for a completed row, binds, stores, adds funds; new state and result are those of `Lifecycle.Store`, invariant kept |
| `Engine.StripeConnect.Checkout` | stripeconnect.php:161-344 | the early-return pipeline; new state, result, data and Stripe calls are those of `Lifecycle.Checkout`, invariant kept |
| `Engine.StripeConnect.Capture` | stripeconnect.php:355-534 | the settlement steps in source order, including storing before deleting the customer; new state, message and calls are those of `Lifecycle.Capture`, invariant kept |
| `Engine.StripeConnect.Void` | stripeconnect.php:545-625 | load, read keys only for a customer, delete (or only log), reset service data, cancel; new state, message and calls are those of `Lifecycle.Void`, invariant kept |
| `LifecycleProperties.PendingRestoreAddsFundsAgain` | stripeconnect.php:697-717 | storing the same pending data twice succeeds twice and adds the amount twice |
| `LifecycleProperties.CompletedRowIsNeverRestored` | stripeconnect.php:696-699 | once the row is completed, a store under its `txn_id` and the store after it are no-ops returning None |
| `LifecycleProperties.CaptureReopensOriginalTxnId` | stripeconnect.php:470-474 | after a successful capture the original `txn_id` has no row, so a store under it passes the gate and adds the funds again |
| `LifecycleProperties.HalfDoneCaptureChargesAgain` | stripeconnect.php:473-478 | a captured charge on a free id followed by a raised customer deletion reports an error, yet the row is stored completed under the charge id with the customer id still in it, and a second capture requests a charge on that customer |
| `LifecycleProperties.RecaptureCancelsCompleted` | stripeconnect.php:502-507 | capturing a completed row again creates no charge, warns and sets it canceled, funds unchanged |
| `LifecycleProperties.CaptureScenario` | stripeconnect.php:429-453 | a pending 10000 pledge with fee 500 is charged 10000 with application fee 500 and completed with its parent id set |
| `LifecycleProperties.VoidTwiceIsQuiet` | stripeconnect.php:591-605 | a second void after a successful one calls nothing and leaves the same state and message, unless loading the row raises; the keys are not read again |
| `LifecycleProperties.VoidCancelsCaptured` | stripeconnect.php:564-605 | voiding a captured row (no row-load failure) calls nothing, reports success, sets the completed row to canceled and empties its service data, erasing the charge references |
| `LifecycleProperties.CheckoutScenario` | stripeconnect.php:223-300 | investor 7 pledging 5000 USD on project 42 without reward ends with a pending 5000 USD row and project 42's funds up by 5000 |
| `LifecycleProperties.StepPreservesValid` | stripeconnect.php:161-625 | any single checkout, capture or void keeps the table invariant |
| `LifecycleProperties.RunPreservesValid` | stripeconnect.php:161-625 | the table invariant holds after any sequence of calls |
| `LifecycleProperties.StepFunds` | stripeconnect.php:714-717 | one call keeps the set of projects, only a checkout changes funds, and a non-negative pledge never lowers them |
| `LifecycleProperties.FundsNeverDecrease` | stripeconnect.php:714-717 | along any sequence of calls with non-negative pledges, no funding total decreases (void and capture never decrement) |
| `LifecycleProperties.OnlyCheckoutMovesFunds` | stripeconnect.php:714-717 | any sequence of captures and voids leaves all funds unchanged |
| `LifecycleProperties.CheckoutKeepsRows` | stripeconnect.php:708-710 | a checkout deletes no row |
| `LifecycleProperties.CaptureKeepsRows` | stripeconnect.php:470-474 | a capture deletes no row: a moved row keeps its id |
| `LifecycleProperties.VoidKeepsRows` | stripeconnect.php:599-605 | a void deletes no row |
| `LifecycleProperties.StepKeepsRows` | stripeconnect.php:161-625 | no single call deletes a row |
| `LifecycleProperties.RowsAreNeverDeleted` | stripeconnect.php:161-625 | every row id survives any sequence of calls |

## Left out

- `onProjectPayment` renders the payment form. It is user interface and is not modelled.
- The context-string, `isAdmin` and document-type guards that return null are not
  modelled. They are CMS event dispatch.
- Translation strings are not modelled. Messages are datatype values that carry the
  `txn_id` the source formats into them. Logging and `JDEBUG` output are not modelled.
- The Stripe SDK (`Customer::create/retrieve/delete`, `Charge::create`) is not modelled.
  Each call is an outcome parameter. The charge and customer descriptions are not modelled.
- `getKeys`, `Payout::load`, `getPayoutAccessToken`, `getFees`/`calculateFee` and the
  row load are not modelled. Their results are capture inputs: keys, an optional payout
  record, an optional token and the fee in minor units. Void's row load and key lookup
  are likewise inputs: the row in the ledger, and the secret key. A raise from any of
  these reads, in capture or in void, is the `raisedAt` outcome. `updateReward` and `closePaymentSession` are outcomes;
  `getPaymentSession` and the currency lookup are inputs. All of these live outside
  this file.
- Encryption of the service data with the application secret is a foreign call and
  is not modelled. Service data is a plain map. A key set to null is absent, and the
  nested `charge.*` paths are flat keys.
- Float amounts and their rounding to minor units (`round(... * 100, 0)`, `abs(... * 100)`)
  are floating point and are not modelled. The fee is one integer, used for both the
  stored fee and the application fee.
- Random generation of the `txn_id` and the current date are not modelled. Both are inputs.
- JSON encoding of extra data is not modelled. The data is kept as it is.
- Database failures of `store`, `storeServiceData`, `updateStatus` and `storeFunds`
  are not modelled; those calls always succeed. The exception is the unique index on
  `txn_id`: a charge id already held by another row makes capture's `store` raise, and
  the capture reports an error without writing.
- Capture and void load the row by its surrogate id. The model addresses it by
  `txn_id`, which `Valid` makes one-to-one with the id. A row that does not exist reads
  as empty service data: capture warns and void reports success, and neither changes anything.
- Capture reads the amount and currency from the loaded row. The source reads them
  from the caller's copy of the same row.
- An `id` key in the data given to `storeTransaction` is ignored by the bind. Checkout,
  its only caller, never sets one.
- Concurrent requests are not modelled. Each call runs to completion on the state it finds.
