# In-memory payment ledger

This project models the core of a small payment service. The service keeps one shared map from username to a user record. A record holds an opaque password hash, a balance and a statement of transactions, newest first. Five operations act on that map:

- `register` validates a username and password, refuses a name already taken, and stores a fresh record with balance 0 and an empty statement.
- `fundAccount` credits an amount to one account.
- `payUser` moves an amount from a sender to a receiver.
- `getBalance` reads an account's balance.
- `getTransactions` reads an account's statement.

Each credit or debit puts a record `{id, kind, amt, updated_bal, timestamp}` on top of the account's statement.

Files:

- `ledger_types.dfy` (`LedgerTypes`) holds the values: `Tx`, `Account`, `Error`, `State` (the users map plus the id counter) and `Result`. It also holds the store invariant `WellFormed`. Every record's `updated_bal` is the running balance right after it, the oldest record starts from 0, amounts are positive, no balance is negative, and ids strictly decrease along a statement. The invariant is stated through `Chained` and proved equal to "balance is the signed sum of the statement, and so is every snapshot up to its record". The weaker `Balanced` keeps everything but the per-record snapshots. `Total` is the sum of all balances.
- `bank.dfy` (`Bank`) gives each operation as a function of the state (`Fund`, `Pay`, `Register`). It also proves that each operation keeps `WellFormed`, and what each does to `Total`.
- `account_store.dfy` (`AccountStore`) holds the mutable shared store: a class with the users map and the id counter.
- `payment_service.dfy` (`PaymentService`) and `user_service.dfy` (`UserService`) hold the service operations as imperative methods on that store. Each method's contract ties the new store and the returned value to the corresponding `Bank` function (`Bank.Commits`). On failure, the error is returned and the store is left exactly as it was.
- `ledger_runs.dfy` (`LedgerRuns`) covers sequences of calls. Every store reachable from the empty one is well formed. Statements only grow at the front. Accounts are never dropped. Funding n times by 1 adds exactly n and writes exactly n records. The same calls performed as the code writes the payment (`RunAsWritten`) keep the store balanced and still only grow statements at the front.

Injected values stand in for the foreign calls:

- The uuid generator is a counter (`nextId`) kept beside the users map.
- The clock is a `now: string` parameter, read once per call.
- The bcrypt hash is a `passwordHash: string` parameter of `register`.

A missing account is not guarded in `fundAccount`, `getBalance` or `getTransactions`, nor for the sender in `payUser`. The code then dereferences `undefined` and throws a TypeError. The model returns the error `NoSuchAccount` at exactly the point where that TypeError would be thrown: after the amount check in `fundAccount`, and after the recipient check but before the funds check in `payUser`. Nothing is changed before it.

## Model

| member | source | states |
|---|---|---|
| LedgerTypes.ChainedIsSnapshots | services/paymentService.js:9-15 | A statement chains to a balance exactly when the balance is the signed sum of the records and every record's `updated_bal` is the signed sum of the records up to and including it (both directions) |
| Bank.PostingKeepsSumGap | services/paymentService.js:7-15 | A posting moves the balance and the signed sum of the statement by the same amount, and a statement that chained to the old balance chains to the new one |
| Bank.PostedKeepsOk | services/paymentService.js:7-15 | A positive posting that does not overdraw, with an id newer than every stored id, keeps the account invariant (chained snapshots, positive amounts, non-negative balance, ids decreasing newest first) |
| Bank.PostedKeepsSummed | services/paymentService.js:7-15 | A positive posting that does not overdraw, with an id newer than every stored id, keeps the balance equal to the signed sum of the statement, positive amounts, non-negative balance and snapshots, and ids decreasing newest first |
| Bank.Fund | services/paymentService.js:4-18 | A non-positive amount throws "Amount must be positive" before the account is looked up; a missing account fails; otherwise the balance rises by exactly `amt` and is returned, one credit record with that balance is prepended to the unchanged old statement, every other account is the same, and the counter advances by one |
| Bank.Pay | services/paymentService.js:22-51 | Checks in order: amount positive, recipient exists, sender exists, sender balance not below `amt` (so paying the whole balance succeeds), each with its own error. Success between two users: sender down by `amt`, receiver up by `amt`, their sum conserved, one debit and one credit record, each carrying its own post-operation balance, all other accounts unchanged, sender's new balance returned. Self-payment: balance unchanged, debit then credit on top |
| Bank.PayAsWritten | services/paymentService.js:22-51 | The code's own ordering (both balance updates, then both records); fails exactly when `Pay` fails, with the same error; on success only `from` and `to` change, the counter advances by two and the sender's stored balance is returned |
| Bank.PayAsWrittenAgreesOffSelf | services/paymentService.js:31-48 | Between two distinct users the code's ordering and `Pay` give the same result and state |
| Bank.SelfPayAsWrittenMisrecordsDebit | services/paymentService.js:31-48 | Any self-payment the funds allow succeeds, returns the unchanged balance B, keeps name, hash and balance, and puts a credit `{amt, B}` over a debit `{amt, B}` on top of the old statement; the debit's snapshot is therefore wrong, the statement no longer chains and the store is not well formed |
| Bank.PayAsWrittenKeepsBalanced | services/paymentService.js:22-51 | The code's own payment, self-payments included, keeps `Balanced`: every balance is the signed sum of its statement and non-negative, amounts are positive, ids stay below the counter and decrease newest first |
| Bank.Register | backend/services/userService.js:5-15 | An empty username or password throws "Username and Password required"; an existing name throws "User already exists"; otherwise the record `{username, hash, balance 0, empty statement}` is inserted under `username`, returned, and every other entry is unchanged |
| Bank.FundKeepsWellFormed | services/paymentService.js:4-18 | A successful funding keeps the store invariant |
| Bank.PayKeepsWellFormed | services/paymentService.js:22-51 | A successful payment, self-payments included, keeps the store invariant; in particular no balance goes negative |
| Bank.RegisterKeepsWellFormed | backend/services/userService.js:10-12 | A successful registration keeps the store invariant |
| Bank.FundAddsToTotal | services/paymentService.js:7 | Funding raises the sum of all balances by exactly `amt` |
| Bank.PayConservesTotal | services/paymentService.js:31-32 | A payment leaves the sum of all balances unchanged |
| LedgerTypes.WellFormedIsBalanced | services/paymentService.js:9-15 | A well-formed store is balanced; the self-payment above shows the converse fails |
| Bank.FundKeepsBalanced | services/paymentService.js:4-18 | A successful funding keeps `Balanced` |
| Bank.PayKeepsBalanced | services/paymentService.js:22-51 | A successful corrected payment keeps `Balanced` |
| Bank.RegisterKeepsBalanced | backend/services/userService.js:10-12 | A successful registration keeps `Balanced` |
| Bank.RegisterKeepsTotal | backend/services/userService.js:10-12 | Registering leaves the sum of all balances unchanged |
| PaymentService.FundAccount | services/paymentService.js:4-18 | The method returns and stores what `Bank.Fund` gives; on failure it throws and changes nothing; on success the returned balance is the stored one, `amt` above the old; a well-formed store stays well formed |
| PaymentService.PayUser | services/paymentService.js:22-51 | The method returns and stores what `Bank.Pay` gives; on failure it throws and changes nothing; a well-formed store stays well formed |
| PaymentService.GetBalance | services/paymentService.js:54-57 | Returns the stored balance and changes nothing; an absent user is the dereference error |
| PaymentService.GetTransactions | services/paymentService.js:60-63 | Returns the stored statement as it is and changes nothing; an absent user is the dereference error |
| UserService.Register | backend/services/userService.js:5-15 | The method returns and stores what `Bank.Register` gives; on success the returned record is the one stored under `username`; a well-formed store stays well formed |
| LedgerRuns.RunKeepsWellFormed | services/paymentService.js:4-51 | Any sequence of register, fund and pay calls from a well-formed store leaves it well formed |
| LedgerRuns.ReachableAccountsBalance | services/paymentService.js:4-51 | In every store built from the empty one, each account is filed under its own name, its balance is non-negative and equals the signed sum of its statement, each record's `updated_bal` is the signed sum up to it, amounts are positive, and ids decrease newest first |
| LedgerRuns.RunExtends | services/paymentService.js:34-48 | Over any sequence of calls no account disappears, name and hash never change, the old statement stays the tail of the new one, and the id counter never goes back |
| LedgerRuns.RunAsWrittenKeepsBalanced | services/paymentService.js:4-51 | Any sequence of calls performed as the code writes them keeps a balanced store balanced |
| LedgerRuns.ReachableAsWrittenBalance | services/paymentService.js:4-51 | Even as written, in every store built from the empty one each account is filed under its own name, its balance is non-negative and the signed sum of its statement, amounts are positive and ids decrease newest first |
| LedgerRuns.RunAsWrittenExtends | services/paymentService.js:34-48 | Even as written, no account disappears, name and hash never change, the old statement stays the tail of the new one, and the counter never goes back |
| LedgerRuns.RunAsWrittenAgreesOffSelf | services/paymentService.js:22-51 | A sequence of calls with no self-payment leaves the same store as written as corrected |
| LedgerRuns.UnitFundsAddUp | services/paymentService.js:4-18 | Funding one account n times by 1 raises its balance by exactly n and adds exactly n records |
| LedgerRuns.StatementNewestFirst | services/paymentService.js:9-15 | After funding `a1` and then `a2`, the statement starts with the `a2` credit, then the `a1` credit, then the old statement |
| LedgerRuns.TransferScenario | services/paymentService.js:22-51 | alice (1000) pays bob (500) 200: the call returns 800, alice has 800 and one debit of 200, bob has 700 and one credit of 200 |

## Findings

| source | as written | input that shows it | evidently intended | confidence | as-written member | corrected member |
|---|---|---|---|---|---|---|
| services/paymentService.js:31-40 | Both balances are updated before either record is written. When sender and receiver are the same user, the debit record therefore reads the balance after the credit as well | alice holds 100 after one credit of 100; `payUser("alice", "alice", 40)` stores a debit `{amt 40, updated_bal 100}` under a credit `{amt 40, updated_bal 100}` | the debit's `updated_bal` is 60, the balance right after the debit, as for every other record | medium, not executed | Bank.PayAsWritten | Bank.Pay |

`Bank.SelfPayAsWrittenMisrecordsDebit` gives the exact outcome of every self-payment as written and shows the discrepancy. Only the per-record snapshot clause of the invariant is lost: `Bank.PayAsWrittenKeepsBalanced` and `LedgerRuns.ReachableAsWrittenBalance` prove that balances still equal the signed sums of their statements and every other clause still holds, and `LedgerRuns.RunAsWrittenExtends` that statements still only grow at the front. `Bank.PayKeepsWellFormed` proves the intended snapshot property of the corrected operation. `Bank.Pay` posts the debit completely (balance and record) before the credit. `PaymentService.PayUser` and every lemma about runs use the corrected `Bank.Pay`. The two agree whenever sender and receiver differ (`Bank.PayAsWrittenAgreesOffSelf`, and for whole sequences of calls `LedgerRuns.RunAsWrittenAgreesOffSelf`).

## Left out

- HTTP controllers and routes are not modelled. They handle request parsing, the `!amt` and `!to` presence checks, `Number(amt)` and the mapping to status codes.
- The Basic-auth middleware is not modelled. It relies on base64 decoding and bcrypt comparison, both foreign code.
- Currency conversion is not modelled. It is a network call followed by floating-point multiplication; its base-currency shortcut (payment_api/services/currencyService.js:5) is outside the ledger.
- Password hashing: bcrypt is foreign. Its output is the `passwordHash` parameter of `register`.
- Configuration constants are environment reads.
- Record ids: the uuid generator is a counter in the store. The model captures no uniqueness beyond what the counter gives.
- Timestamps: the clock is one `now` parameter per call. The two records of a payment share it, while the code reads the clock twice. Monotonic timestamps are not modelled.
- Concurrency is not modelled. The ledger functions run to completion without awaiting, and the model treats every operation as atomic and sequential. `register` awaits the hash between its duplicate check and its insertion; that interleaving of two concurrent registrations is not modelled.
- Aliasing: `getTransactions` hands out the live statement array and `register` returns the stored object itself. The model returns values, so later mutation through such a reference is not captured.
- JS values: amounts are integers. NaN, strings, fractions and floating-point rounding are not modelled. Usernames and passwords are strings, so `!username` is the empty-string test, and `undefined` or `null` arguments are not modelled.
- NoSuchAccount: the message of the TypeError is engine-specific. The model gives it a fixed text.
- PaymentService.PayUser: on a self-payment it stores the corrected debit snapshot (see Findings), not the code's.
