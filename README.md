# Toy transaction engine: the ledger state machine in Dafny

This project models the core of a small payments engine written in Rust. The
engine reads a stream of deposit, withdrawal, dispute, resolve and chargeback
events. It applies each one to an in-memory ledger of per-client accounts and
hands back the final balances. Amounts are fixed-point: an `i64` counting
1/10000 of a currency unit.

Modules, one per part of the source:

- `Money` (`money.dfy`): `Price` as an `int` inside the i64 range. It covers
  checked add and subtract (`try_add`, `try_sub`), `make_absolute` and the two
  numbers `Display` prints.
- `PriceDisplay` (`price_display.dfy`): the text `Display for Price` produces,
  a corrected rendering, and a decimal reader to compare them.
- `DataTypes` (`data_types.dfy`): event types and their parser, transaction
  flags, error kinds, and `Account` with `deposit`, `withdraw` and
  `available`.
- `Ledger` (`ledger.dfy`): `TransactionContext` and its two maps, tx id to
  (amount, flag) and client id to account. Pure functions give each handler's
  effect. The class applies the same updates in place and is proved to agree.
- `Processor` (`processor.dfy`): the dispatcher. `run` drains a finite queue,
  makes each amount absolute and routes the event. Over the whole input it is a
  left fold (`Fold`) from the empty ledger.
- `Scenarios` (`scenarios.dfy`): the unit-test scenarios, and whole runs that
  show the behaviour listed below.
- `Wrappers` (`wrappers.dfy`): `Option` and `Result`.

`Price` and `Account` are `Copy` values in Rust, and the ledger stores accounts
by value. So a `&mut self` method on them becomes a method that takes the value
and returns the updated one. `TransactionContext`, which the handlers update in
place, is a class whose methods `modify` it.

Three panics of a debug build become preconditions:

- `i64::abs` overflows on `i64::MIN`. `MakeAbsolute` excludes that value, so
  `run` needs every event amount to differ from it.
- `available()` subtracts without a check. `withdraw` reads it on an unlocked
  account, so it needs `total - held` to fit in i64.
- `Display for Price` calls `abs` too, so `DisplayParts` and `Display` exclude
  `i64::MIN`.

`Runnable(s, events)` states that no turn of `run` reaches one of the first
two panics. The second one is reachable. A resolve by another client can push an account's
held funds far below zero, after which a large total makes `total - held`
overflow.

The third one lies outside `run`, in the output. It is reachable as well: two
chargebacks of a deposit of 0.0001 and a cross-client chargeback of a deposit
of `i64::MAX` leave a total of exactly `i64::MIN` (`Scenarios.MinTotalRun`),
and printing that total panics.

The model follows what the code does, including where a payments ledger might
be expected to behave otherwise:

- The ledger records no owning client. A dispute puts its hold on the account
  of the event's client, whoever made the deposit
  (`Scenarios.CrossClientDisputeRun`).
- Withdrawals are recorded, so they can be disputed like deposits.
- A dispute sets the flag to `Disputed` whatever the flag was. It does so even
  when the event's client has no account.
- A chargeback is therefore not final: a record can be disputed and charged
  back again, and the total falls each time
  (`Scenarios.RepeatedChargebackRun`).
- `held <= total` is not an invariant. Disputing a deposit after part of it was
  withdrawn holds more than the total (`Scenarios.HeldExceedsTotalRun`).
- A refused deposit or withdrawal still leaves the default account that
  `or_default` created.
- `exhaust_sources` calls `TransactionContext::default()`, which the source
  does not define. It is modelled as the empty ledger that `new` builds.

## Model

| member | source | states |
|---|---|---|
| Money.TryAdd | src/data_types.rs:14-20 | returns true and stores the exact sum exactly when it fits in i64; otherwise returns false and leaves the value unchanged |
| Money.TrySub | src/data_types.rs:22-28 | returns true and stores the exact difference exactly when it fits in i64; otherwise returns false and leaves the value unchanged |
| Money.MakeAbsolute | src/data_types.rs:10-12 | the new value is non-negative and equals the magnitude of the old one (`i64::MIN`, where `abs` overflows, is excluded) |
| Money.DisplayParts | src/data_types.rs:31-36 | the fractional part lies in 0..9999; the integral part carries the sign; integral times 10000 plus (or, for a negative value, minus) the fraction rebuilds the value, so the integral part is the quotient truncated toward zero (`i64::MIN`, where `abs` overflows, is excluded) |
| PriceDisplay.DisplayReads | src/data_types.rs:31-36 | the text as written reads back as the signed integral part times 10000, plus or minus the fraction's digits taken as the leading fractional digits |
| PriceDisplay.DisplayReadBack | src/data_types.rs:31-36 | the text as written reads back as the amount exactly when the amount is not strictly between -1 and 0 and its fraction is zero or at least 0.1 |
| PriceDisplay.DisplayDropsFractionZeros | src/data_types.rs:33-35 | as written, 0.0005 prints as "0.5", which reads back as 0.5 |
| PriceDisplay.DisplayDropsSign | src/data_types.rs:33-35 | as written, -0.5 and 0.5 both print "0.5000"; the sign of a value between -1 and 0 is lost |
| PriceDisplay.DisplayFixedRoundTrip | src/data_types.rs:31-36 | the corrected rendering (sign, integral digits, exactly four fractional digits) reads back as exactly the amount rendered, for every i64 value |
| PriceDisplay.DisplayFixedInjective | src/data_types.rs:31-36 | under the corrected rendering, distinct amounts never print alike |
| DataTypes.ParseTransactionType | src/data_types.rs:106-118 | accepts exactly the five names "deposit", "withdrawal", "dispute", "resolve" and "chargeback", each naming its own type; any other string is an error quoting the input |
| DataTypes.ParseTypeName | src/data_types.rs:106-118 | every type's name parses back to that type |
| DataTypes.Account.Available | src/data_types.rs:194-198 | available plus held equals total; defined only while the unchecked subtraction fits |
| DataTypes.Account.Deposit | src/data_types.rs:183-192 | `Locked` exactly when locked; otherwise `Overflow` exactly when total plus amount leaves i64; otherwise success with total raised by exactly the amount, held and locked unchanged; every failure leaves the account unchanged |
| DataTypes.Account.Withdraw | src/data_types.rs:167-181 | checks in order: `Locked` if locked, then `InsufficientFunds` if amount exceeds total minus held, then `Overflow` if the subtraction leaves i64; failures leave the account unchanged; success lowers total by exactly the amount |
| DataTypes.LockedRefusesAll | src/data_types.rs:166-192 | a locked account refuses both deposit and withdrawal with `Locked` |
| DataTypes.WithdrawNonNegative | src/data_types.rs:167-181 | a non-negative withdrawal never reports `Overflow`; on success available funds drop by exactly the amount and stay non-negative |
| DataTypes.DepositThenWithdraw | src/data_types.rs:167-192 | depositing an amount and then withdrawing it gives back the account exactly, when held and available funds were non-negative |
| Ledger.TransactionContext.constructor | src/transaction_context.rs:14-19 | both maps start empty |
| Ledger.TransactionContext.IntoIterAccounts | src/transaction_context.rs:21-23 | hands over every client's account, and only those |
| Ledger.TransactionContext.HandleTransaction | src/transaction_context.rs:25-53 | the insert, `or_default`, account operation and removal on failure leave the two maps exactly as `ApplyTransaction` describes |
| Ledger.TransactionContext.HandleDispute | src/transaction_context.rs:55-69 | the in-place updates leave the maps exactly as `ApplyDispute` describes |
| Ledger.TransactionContext.HandleResolve | src/transaction_context.rs:71-89 | the in-place updates leave the maps exactly as `ApplyResolve` describes |
| Ledger.TransactionContext.HandleChargeback | src/transaction_context.rs:91-113 | the in-place updates leave the maps exactly as `ApplyChargeback` describes |
| Ledger.DuplicateIgnored | src/transaction_context.rs:32-35 | a tx id already recorded leaves both maps unchanged, whatever the client, amount or kind |
| Ledger.TransactionAccepted | src/transaction_context.rs:37-44 | an accepted deposit or withdrawal records (amount, `None`) under its tx id and moves the client's total by exactly the amount (up or down); held and locked and every other account are unchanged |
| Ledger.TransactionRefused | src/transaction_context.rs:39-52 | a refused deposit or withdrawal leaves the record map as it was; the only trace is a default account for a client that had none |
| Ledger.LockedAccountRefuses | src/transaction_context.rs:39-44 | a deposit or withdrawal for a locked account leaves both maps unchanged |
| Ledger.DisputeUnknown | src/transaction_context.rs:56-59 | a dispute of an unknown tx changes nothing |
| Ledger.DisputeKnown | src/transaction_context.rs:61-68 | a dispute of a known tx, with any prior flag, sets the flag to `Disputed` and keeps the amount; if the event's client has an account, its held funds grow by the recorded amount unless that overflows; total, locked and every other account stay unchanged, and no account is created |
| Ledger.SettleRefused | src/transaction_context.rs:71-105 | resolve and chargeback change nothing when the tx is unknown, is not `Disputed`, or the event's client has no account |
| Ledger.ResolveAccepted | src/transaction_context.rs:87-88 | a resolve lowers held funds by the recorded amount (unless that overflows), keeps total and locked, sets the flag to `Resolved`, and changes nothing else |
| Ledger.ChargebackAccepted | src/transaction_context.rs:107-112 | a chargeback lowers held and total by the recorded amount (each unless that overflows), locks the account, sets the flag to `Chargeback`, and changes nothing else |
| Ledger.ChargebackFreezes | src/transaction_context.rs:107-112 | on the state a chargeback leaves, any deposit or withdrawal for that client leaves both maps unchanged |
| Processor.Normalize | src/transaction_processor.rs:32 | the amount passed on is non-negative, equals the event's amount up to sign, and client, tx and type are kept |
| Processor.TransactionProcessor.constructor | src/transaction_processor.rs:25-27 | the processor drives the given ledger and drains the given queue |
| Processor.TransactionProcessor.Run | src/transaction_processor.rs:29-36 | the queue is drained and the ledger equals the fold of normalise-then-dispatch over the events, in arrival order |
| Processor.TransactionProcessor.UpdateAccounts | src/transaction_processor.rs:39-59 | deposit and withdrawal events reach `handle_transaction` with their client, tx and amount; the dispute family reaches its handler with client and tx only |
| Processor.ExhaustSources | src/transaction_processor.rs:16-23 | starting from an empty ledger, the accounts returned are those of the fold over all events |
| Processor.FoldAppend | src/transaction_processor.rs:29-36 | processing `a + b` equals processing `a` and then `b` from the resulting ledger, and it is panic-free exactly when both parts are |
| Processor.DisputeFamilyIgnoresAmount | src/transaction_processor.rs:53-57 | dispute, resolve and chargeback give the same ledger whatever the event's amount |
| Processor.ProcessStep | src/transaction_processor.rs:30-35 | one turn keeps every record with its amount, every account and every lock; a new record or account can only come from a deposit or withdrawal event, for that event's tx and client; recorded amounts stay non-negative |
| Processor.FoldProperties | src/transaction_processor.rs:29-36 | over a whole run, records are never dropped or repriced, accounts never vanish, locks are never lifted, and every new record and account comes from some deposit or withdrawal event of the input |
| Processor.LockedStaysFrozen | src/transaction_context.rs:39-44 | once a client's account is locked, after any further run, a deposit or withdrawal for that client changes nothing |
| Processor.RunFromEmpty | src/transaction_processor.rs:16-23 | from the empty ledger, every stored amount is non-negative, and every stored tx id and account belongs to a deposit or withdrawal event of the input |
| Scenarios.DepositWithdrawScenario | src/transaction_context.rs:125-154 | deposit 100 then withdraw 50 records both txs and leaves total and available at 50, held 0 |
| Scenarios.DisputeLifecycleScenario | src/transaction_context.rs:156-208 | a dispute holds the whole deposit; a resolve releases it; a chargeback zeroes total and held and locks the account; each sets the expected flag |
| Scenarios.RejectedScenarios | src/transaction_context.rs:210-248 | a duplicate deposit, and dispute, resolve or chargeback on an empty ledger, change nothing |
| Scenarios.HeldExceedsTotalRun | src/transaction_context.rs:61-68 | deposit 10, withdraw 5, dispute the deposit: held 10 exceeds total 5 |
| Scenarios.NegativeAmountRun | src/transaction_processor.rs:30-35 | a deposit of -3 on the wire is applied and recorded as 3; the dispute's own amount plays no part |
| Scenarios.CrossClientDisputeRun | src/transaction_context.rs:63-68 | a dispute by client 2 of client 1's deposit holds the amount on client 2's account |
| Scenarios.RepeatedChargebackRun | src/transaction_context.rs:55-113 | disputing and charging back one deposit twice lowers the total twice, to -10 |
| Scenarios.MinTotalRun | src/transaction_context.rs:55-113 | a deposit of `i64::MAX`, a deposit of 0.0001 charged back twice, and a chargeback of the large deposit by the second client leave that client's total at exactly `i64::MIN` |

## Left out

- `TryFrom<f64> for Price`, `PartialEq<f64> for Price` and the serde `Deserialize` impls (src/data_types.rs:48-85, 121-129): floating-point conversion and library deserialisation. Events enter the model already decoded.
- `Debug for TransactionEvent` (src/data_types.rs:131-139): diagnostic text only.
- src/csv_source.rs and src/main.rs: file and argument handling, the reader thread and CSV output. They are I/O adapters with no ledger state.
- The channel between producer and consumer (src/transaction_processor.rs:30): the blocking `recv` loop and its concurrency become a finite sequence, drained in order.
- `tracing::debug!` logging: the handlers return nothing, so the error kinds `Duplicate`, `NotFound` and `InvalidDispute`, which appear only in log lines, have no effect on the model's state.
- The capacity hints of `HashMap::with_capacity` and the iteration order of `into_iter_accounts`: accounts are handed over as a map.
- Money.MakeAbsolute: `i64::MIN` is excluded by a precondition (the debug-build panic); the release-build wrap-around, which would pass a negative amount to the ledger, is not modelled.
- DataTypes.Account.Withdraw: an overflowing `available()` is excluded by a precondition (the debug-build panic); the release-build wrapped comparison is not modelled.
- Money.DisplayParts: `i64::MIN` is excluded by a precondition (the debug-build panic of `abs`); the release-build output "-922337203685477.-5808" is not modelled.
- PriceDisplay.Display: excludes `i64::MIN` for the same reason; the corrected `DisplayFixed` renders it.
- Processor.TransactionProcessor.Run: it requires `Runnable`, i.e. that no event hits the panic of Money.MakeAbsolute or of DataTypes.Account.Withdraw.

## Findings

| source | as written | input that shows it | evidently intended | confidence | as-written member | corrected member |
|---|---|---|---|---|---|---|
| src/data_types.rs:34-35 | the fractional part is printed with `{}`, so leading zeros are dropped | `Price(5)` (0.0005) prints "0.5" | four fractional digits: "0.0005" | high; not executed | PriceDisplay.DisplayDropsFractionZeros | PriceDisplay.DisplayFixedRoundTrip |
| src/data_types.rs:33-35 | the sign rides only on the truncated integral part | `Price(-5000)` (-0.5) prints "0.5000", the same as `Price(5000)` | "-0.5000" | high; not executed | PriceDisplay.DisplayDropsSign | PriceDisplay.DisplayFixedInjective |
| src/data_types.rs:34 | the fraction is taken of `self.0.abs()`, which overflows on `i64::MIN`, a total the ledger can reach | the run of `Scenarios.MinTotalRun`, whose final total is `i64::MIN` | render every i64, e.g. via the unsigned magnitude | high; not executed | Scenarios.MinTotalRun | PriceDisplay.DisplayFixedRoundTrip |
