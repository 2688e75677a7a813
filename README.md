# Wallet ledger model

A Dafny model of the wallet ledger of a small crypto-wallet application
(`src/wallet.py`). A `Wallet` holds a transaction list and a per-currency
balance map. Building a wallet replays the list strictly in order. Each
transaction is validated. A deposit adds its amount. A withdrawal that the
balance does not cover is skipped, reports `false` and warns if asked to.
Any other withdrawal subtracts its amount. A transaction that fails
validation (a non-positive amount) raises and aborts construction.

Modules, one per concern of the source:

- `Enums` (`enums.dfy`): the closed `Currency` (USD, BTC, ETH) and `WalletAction` (DEPOSIT, WITHDRAW) enumerations.
- `Transactions` (`transaction.dfy`): the `(walletAction, currency, amount)` triple.
- `Validation` (`validation.dfy`): the three guards and their composition, returning an `Outcome` instead of raising.
- `Ledger` (`ledger.dfy`): the pure specification. It defines `Process` (one transaction applied to a balance map) and `Replay` (the left fold of `Process` over a list, stopping at the first rejected transaction). It also holds the lemmas about both.
- `Wallets` (`wallet.dfy`): the `Wallet` class. `state` is updated in place by `ProcessTransaction`, and `PostInit` replays the list in a loop. Both methods are proved equal to `Process` and `Replay`.
- `WalletTests` (`wallet_tests.dfy`): client scenarios, including the repository's own test vector.
- `Wrappers` (`wrappers.dfy`): `Option`, `Result`, `Outcome`.
- `FloatAmounts` (`float_amounts.dfy`): amounts and balances as doubles (finite, the infinities, NaN), used only for the finding below. It models the amount guard and the withdrawal test as written, and the intended guard, behind which the double steps agree with `Process`. The ledger takes the intended guard's view: its amounts are finite reals.

Balances are `map<Currency, real>` read through `Ledger.Get`, which returns 0
for an absent currency, as the source's `defaultdict(float)` does. The
insufficient-funds warning is the `warned` output of `ProcessTransaction`. A
raised `ValueError` is a `Failure`/`Fail` value. Dafny constructors cannot
fail, so `Wallet(transaction_list=...)` is modelled as `Wallet.Create`: the
field initialiser (`constructor`), then `PostInit`.

Two modelling notes:

- Errors: the source raises one `ValueError` with three messages. The model gives each its own `ValidationError` constructor.
- The insufficient-funds warning depends on the per-call `verbose` flag. The replay during construction always passes `true`, and `PostInit` returns, per processed transaction, whether it warned.

## Model

| member | source | states |
|---|---|---|
| `Ledger.Get` | src/wallet.py:24 | the total balance read: an absent currency reads as 0, as a defaultdict(float) does; its meaning is used by every lemma below |
| `Ledger.Process` | src/wallet.py:59-76 | the step function of one transaction on a balance map; it has no contract of its own, and its meaning is given by the `Ledger.Process*` lemmas below |
| `Validation.ValidateCurrency` | src/wallet.py:80-92 | every member of the closed currency type passes the membership check |
| `Validation.ValidateWalletAction` | src/wallet.py:94-106 | every member of the closed action type passes the membership check |
| `Validation.ValidateAmount` | src/wallet.py:108-120 | passes iff the amount is strictly positive; otherwise fails with NonPositiveAmount of that amount |
| `Validation.ValidateTransaction` | src/wallet.py:122-138 | the combined check (action, then currency, then amount) passes iff the amount is positive, and its only possible error is NonPositiveAmount |
| `Ledger.ProcessRejectsNonPositive` | src/wallet.py:59 | a transaction fails iff its amount is <= 0, with NonPositiveAmount, whatever the action, before any balance is computed |
| `Ledger.ProcessDeposit` | src/wallet.py:61-63 | a positive deposit returns true, no warning, raises its currency by exactly the amount and leaves every other currency unchanged |
| `Ledger.ProcessWithdrawSkipped` | src/wallet.py:65-73 | a withdrawal above the balance returns false, leaves the balances unchanged, and warns exactly when verbose |
| `Ledger.ProcessWithdrawApplied` | src/wallet.py:75-76 | a covered withdrawal returns true, lowers its currency by exactly the amount and changes no other currency |
| `Ledger.ProcessFlags` | src/wallet.py:61-76 | an accepted transaction returns true iff it is a deposit or the balance covers it; a warning is emitted iff verbose and it returned false |
| `Ledger.ProcessDelta` | src/wallet.py:61-76 | an accepted transaction changes each currency by its signed delta: the amount for its own currency when applied, zero otherwise |
| `Ledger.ProcessPreservesNonNegative` | src/wallet.py:61-76 | if no balance is negative before a transaction, none is negative after it, for every action and amount |
| `Ledger.Replay` | src/wallet.py:30-37 | the fold records one flag per processed transaction; on an abort the index is the number of flags recorded and lies inside the list |
| `Ledger.ReplayNonNegative` | src/wallet.py:26-76 | replaying any list from non-negative balances ends with non-negative balances |
| `Ledger.ReplayCompletesIff` | src/wallet.py:35-37 | the replay reaches the end of the list iff every amount in it is positive |
| `Ledger.ReplayAbortSticks` | src/wallet.py:35-37 | once a prefix aborts, the transactions after it are never processed: the whole replay equals the prefix's |
| `Ledger.ReplayCleanPrefix` | src/wallet.py:35-37 | every prefix up to the stopping point replays without abort and returns the same flags |
| `Ledger.ReplayAbortAt` | src/wallet.py:35-37 | an abort at index k means transaction k has a non-positive amount, all earlier ones are positive, and the balances are those of a clean replay of the first k |
| `Ledger.ReplayWarnsOnSkip` | src/wallet.py:35-37 | during the replay (verbose on) transaction i emits a warning exactly when it reported false, i.e. was a skipped withdrawal |
| `Ledger.ReplayAppliedMeans` | src/wallet.py:61-76 | the flag of transaction i is true iff it is a deposit or the balance left by the first i transactions covers it |
| `Ledger.ReplayNet` | src/wallet.py:26-76 | after a complete replay each currency's balance is its start value plus its deposits minus its applied withdrawals |
| `Ledger.ReplayUntouched` | src/wallet.py:35-37 | a currency no transaction mentions keeps its balance |
| `Ledger.ReplayOrderMatters` | src/wallet.py:30-37 | [DEPOSIT BTC 10, WITHDRAW BTC 5] ends at BTC 5 with both applied; the reverse ends at BTC 10 with the withdrawal skipped |
| `Wallets.Wallet.constructor` | src/wallet.py:23-24 | the wallet stores the list and starts from the empty (all-zero) balance map |
| `Wallets.Wallet.PostInit` | src/wallet.py:26-37 | the loop leaves state equal to Replay of the list from the old state, returns Replay's per-transaction warnings, fails exactly when Replay aborts and with the same index and error, and keeps balances non-negative |
| `Wallets.Wallet.ProcessTransaction` | src/wallet.py:39-78 | a rejected transaction changes nothing; otherwise the new state, returned flag and warning are those of Process, and non-negativity is kept |
| `Wallets.Wallet.Balance` | src/wallet.py:140-148 | the snapshot has the same keys and the same balance for every currency as the state |
| `Wallets.Wallet.Create` | src/wallet.py:11-37 | construction succeeds iff the replay from empty balances completes; the new wallet's state is that replay's, non-negative; a failure carries the replay's abort |
| `WalletTests.SimpleScenario` | tests/test_wallet.py:10-21 | the test list replays with flags [T,T,T,F,T,T], a single warning (for WITHDRAW BTC 2), to BTC 1.0, ETH 5.0, USD 700.0 |
| `WalletTests.SimpleWalletInitialization` | tests/test_wallet.py:9-21 | a wallet built from the test list reads BTC 1.0, ETH 5.0, USD 700.0 |
| `WalletTests.EmptyWallet` | src/wallet.py:24 | an empty list yields an empty balance map |
| `WalletTests.ZeroAmountAborts` | src/wallet.py:119-120 | a zero amount at index 1 aborts construction at index 1 |
| `WalletTests.SnapshotIsIndependent` | src/wallet.py:148 | editing a snapshot does not change a later snapshot of the wallet |
| `WalletTests.QuietSkip` | src/wallet.py:65-73 | with verbose off an uncovered withdrawal returns false, warns nothing and leaves the state unchanged |
| `FloatAmounts.AcceptsAmountAsWritten` | src/wallet.py:119-120 | the amount guard as written on doubles; it has no contract of its own, and its meaning is given by `FloatAmounts.NonFiniteAmountsAccepted` |
| `FloatAmounts.DepositAsWritten` | src/wallet.py:61-63 | a deposit as written on doubles; it has no contract of its own, and its meaning is given by `FloatAmounts.NaNBalanceCoversEverything` |
| `FloatAmounts.WithdrawAsWritten` | src/wallet.py:65-76 | a withdrawal as written on doubles; it has no contract of its own, and its meaning is given by `FloatAmounts.NaNBalanceCoversEverything` |
| `FloatAmounts.NonFiniteAmountsAccepted` | src/wallet.py:119-120 | the amount guard as written accepts NaN and positive infinity, because `amount <= 0` is false for both, and still rejects negative infinity |
| `FloatAmounts.NaNBalanceCoversEverything` | src/wallet.py:61-76 | as written, a NaN deposit makes the balance NaN, after which every withdrawal that passes the guard reports true; depositing and withdrawing infinity reports true and leaves NaN |
| `FloatAmounts.AcceptsAmount` | src/wallet.py:119-120 | the intended guard accepts exactly the finite, strictly positive amounts, and every amount it accepts passes the ledger's ValidateAmount |
| `FloatAmounts.AcceptedDepositFollowsProcess` | src/wallet.py:61-63 | behind the intended guard a double deposit gives the same flag and balance as the ledger's Process |
| `FloatAmounts.AcceptedWithdrawalFollowsProcess` | src/wallet.py:65-76 | behind the intended guard a double withdrawal gives the same flag and balance as the ledger's Process |

## Left out

- Floating point: amounts and balances in the ledger are exact reals. IEEE-754 rounding of `float` sums is not modelled; the test values are exact in binary, so the test vector is unaffected. Overflow is not modelled either: even finite positive deposits can overflow a balance to +inf (two deposits of 1e308), which the exact sums of the ledger and of `FloatAmounts.Add` cannot show.
- NaN and +inf amounts: in the source they pass the amount guard (`nan <= 0` and `inf <= 0` are false; -inf is still rejected) and can make a balance NaN, after which every withdrawal that passes the guard reports true. The ledger's reals exclude them, so `ValidateAmount`, `ProcessPreservesNonNegative`, `ReplayNonNegative`, `ProcessFlags` and `ReplayAppliedMeans` hold of finite amounts only; `FloatAmounts` models the source's behaviour on them (see Findings).
- The default `verbose=True` of `process_transaction` is not modelled: `ProcessTransaction` takes `verbose` as an ordinary argument, and the construction replay passes `true` explicitly.
- The `warnings.warn` machinery: only whether a warning is emitted is modelled, as the `warned` output.
- `SimpleQueue`: the queue is filled and drained in the same order as the list. It is replaced by a loop over the sequence.
- Defaultdict key insertion: reading `state[currency]` on a skipped withdrawal inserts a 0 entry into the source's map. The model leaves the map unchanged. Every lookup through `Get` is the same either way, but `Balance` after a skip can lack a key that the source's copy holds as 0.
- An explicit `state` argument to the dataclass is not modelled. `Create` always starts from the empty map. `PostInit` is proved for any starting state.
- The final `return False` for an action that is neither deposit nor withdraw is not modelled. It cannot be reached with a closed `WalletAction` type.
- The `UnsupportedCurrency`/`UnsupportedWalletAction` errors: they are kept in the validators but can never be produced, because the enumerations are closed types. Enum string values and `StrEnum` behaviour are not modelled.
- `src/cli.py` is not part of this model: prompts, file pickers, CSV/JSON parsing and table rendering are I/O.

## Findings

| source | as written | input that shows it | evidently intended | confidence | as-written member | corrected member |
|---|---|---|---|---|---|---|
| src/wallet.py:119-120 | the guard `if amount <= 0` rejects only amounts for which the comparison is true, so NaN and +inf pass | deposit NaN: the balance becomes NaN, and then every withdrawal that passes the guard finds `balance < amount` false and reports True; deposit inf then withdraw inf: reports True and leaves `inf - inf = nan` | reject every amount that is not finite and strictly positive | not executed; high for the NaN input | `FloatAmounts.NaNBalanceCoversEverything` | `FloatAmounts.AcceptsAmount` |
