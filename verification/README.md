# Bank account simulator: account rules and registry

A Dafny model of the core of a console bank simulator written in C++
(`ThugBankCrazy.cpp`). The program has savings and checking accounts. Each account
keeps a balance, a PIN, per-cycle deposit and withdrawal counters, an annual
interest rate, pending service charges, an "active" flag and an append-only
transaction history. A bank registry maps account numbers to accounts, hands out
numbers from a counter, and authenticates by number and PIN.

The model has these parts:

- `wrappers.dfy`, module `Wrappers`: `Option`, which stands in for the null pointer `getAccount` returns.
- `account_rules.dfy`, module `AccountRules`: the `Transaction` record and the
  account state as a value, `AccountState`. It also holds every rule of `Account`,
  `Savings` and `Checking` as a function from the old state to the new one.
  `Deposit`, `Withdraw` and `MonthlyProc` dispatch on the variant, as the virtual
  calls do. `Invariant` is what every account the program builds satisfies: the
  balance is the last logged `balanceAfter` (0 for an empty history), pending
  charges are not negative, the rate is the variant's rate, and a checking account
  is always active.
- `accounts.dfy`, module `Accounts`: class `Account`. Its fields mirror the C++
  fields, plus a constant variant tag in place of the subclass. Each method
  updates the fields in place, in the same steps as the C++ method. Each is proved
  to leave `State()` equal to the matching rule applied to `old(State())`. The
  public `Deposit`, `Withdraw` and `MonthlyProc` also preserve `Valid()`.
- `account_properties.dfy`, module `AccountProperties`: the properties of the rules.
  - The guard and the effect of each operation.
  - The order of monthly processing, checked against an independent `PendingCharge`.
  - Over any session of menu operations (`Run`): the history is only appended to
    and always ends at the balance.
  - The savings freeze.
  - Typical sessions: a savings freeze, a checking overdraft, a month's checking charge.
- `bank.dfy`, module `BankRegistry`: class `Bank`. It holds a `map<int, Account>`
  and `nextAccountNumber`, plus `CreateAccount`, `GetAccount` and `Authenticate`,
  and a small client that exercises them.

Money is an exact `real`. The C++ uses `double`, so rounding is not modelled. The
date stamped on each transaction is a string parameter; the program reads it from
the wall clock.

Quirks of the code that the model keeps as written:

- A checking withdrawal above the balance never pays out the requested amount.
  It only charges the $15 fee. The fee is taken from the balance at once and is
  also added to the pending charges. The next monthly processing therefore takes
  it a second time (`OverdraftFeeChargedTwice`).
- `Savings::deposit` runs its "balance at least 25 ⇒ active" test even after the
  base deposit has refused a non-positive amount. One would expect a refused
  deposit to change nothing. The code does change the status of a frozen savings
  account that holds at least $25, and such an account is reachable: interest can
  lift a frozen account over $25. `InvalidDeposit` states exactly what a refused
  deposit does. `InvalidDepositReactivates` exhibits the case.
- A savings account is not kept inactive exactly when its balance is below 25. A first
  deposit below $25 leaves the account active. Interest can lift a frozen account
  to $25 or more while it stays frozen. The model follows the code. What holds is
  `FrozenUntilDeposit`: once frozen, an account stays frozen and refuses every
  withdrawal until a deposit brings the balance back to 25 or more.

## Model

| member | source | states |
|---|---|---|
| `Accounts.Account.constructor` | ThugBankCrazy.cpp:44-45 | a new account has the given PIN, balance 0, zero counters and charges, is active, has an empty history and the variant's rate (0.05 savings, 0.03 checking) |
| `Accounts.Account.GetBalance` | ThugBankCrazy.cpp:101 | the balance returned is the `balanceAfter` of the last logged transaction, or 0 when nothing is logged |
| `Accounts.Account.GetType` | ThugBankCrazy.cpp:133 | the type name reported parses back to the account's own variant |
| `Accounts.Account.AddTransaction` | ThugBankCrazy.cpp:39-41 | appends one entry stamped with the date, label, amount and current balance; nothing else changes |
| `Accounts.Account.BaseDeposit` | ThugBankCrazy.cpp:51-59 | the object ends in the state of `AccountRules.BaseDeposit`: refused when amount ≤ 0, else balance + amount, one more deposit, one "Deposit" entry |
| `Accounts.Account.BaseWithdraw` | ThugBankCrazy.cpp:61-73 | the object ends in the state of `AccountRules.BaseWithdraw`: refused when amount ≤ 0 or above the balance, else balance − amount, one more withdrawal, one "Withdrawal" entry |
| `Accounts.Account.CalcInt` | ThugBankCrazy.cpp:75-79 | adds balance × rate / 12 to the balance and logs it as "Interest" |
| `Accounts.Account.BaseMonthlyProc` | ThugBankCrazy.cpp:81-88 | deducts pending charges (logging them only when positive), then applies interest, then zeroes both counters and the charges |
| `Accounts.Account.SavingsWithdraw` | ThugBankCrazy.cpp:108-119 | the object ends in the state of `AccountRules.SavingsWithdraw`: only an active account with enough funds pays out, and it is frozen when the new balance is below 25 |
| `Accounts.Account.SavingsDeposit` | ThugBankCrazy.cpp:121-124 | the object ends in the state of `AccountRules.SavingsDeposit`: the base deposit, then active whenever the balance is at least 25 |
| `Accounts.Account.SavingsMonthlyProc` | ThugBankCrazy.cpp:126-131 | adds $1 per withdrawal beyond 4 to the charges, runs the base cycle, freezes the account when the final balance is below 25 |
| `Accounts.Account.CheckingWithdraw` | ThugBankCrazy.cpp:165-178 | the object ends in the state of `AccountRules.CheckingWithdraw`: a base withdrawal within the balance, otherwise the $15 fee taken from the balance and added to the charges |
| `Accounts.Account.CheckingMonthlyProc` | ThugBankCrazy.cpp:180-183 | adds 5 + 0.10 × withdrawals to the charges, then runs the base cycle |
| `Accounts.Account.Deposit` | ThugBankCrazy.cpp:51-59 | the virtual deposit follows the account's variant and keeps the account consistent (balance agrees with the history) |
| `Accounts.Account.Withdraw` | ThugBankCrazy.cpp:61-73 | the virtual withdraw follows the account's variant and keeps the account consistent |
| `Accounts.Account.MonthlyProc` | ThugBankCrazy.cpp:81-88 | the virtual monthly processing follows the account's variant and keeps the account consistent |
| `AccountProperties.TypeNameRoundTrip` | ThugBankCrazy.cpp:263-266 | "Savings" and "Checking" are accepted and name their variant back; a name selects a variant iff it is that variant's name |
| `AccountProperties.NewAccountIsConsistent` | ThugBankCrazy.cpp:44-45 | a new account is consistent, active, has balance 0, an empty history and its variant's rate |
| `AccountProperties.InvalidDeposit` | ThugBankCrazy.cpp:121-124 | a deposit ≤ 0 leaves balance, deposit count and history unchanged; its only effect is to reactivate a savings account holding at least 25 |
| `AccountProperties.ValidDeposit` | ThugBankCrazy.cpp:51-59 | a deposit > 0 adds exactly the amount, counts one deposit, appends one "Deposit" whose `balanceAfter` is the new balance, activates a savings account reaching 25, and changes nothing else |
| `AccountProperties.InvalidWithdraw` | ThugBankCrazy.cpp:165-169 | a withdrawal ≤ 0 changes nothing, for both variants |
| `AccountProperties.SavingsWithdrawGuard` | ThugBankCrazy.cpp:108-119 | a savings withdrawal changes the account iff amount > 0, the account is active and the balance covers it; it then subtracts the amount, counts one withdrawal, logs one "Withdrawal", and the account is active iff the new balance is at least 25 |
| `AccountProperties.CheckingWithdrawal` | ThugBankCrazy.cpp:165-178 | within the balance: a plain withdrawal of the amount; above it: balance − 15, charges + 15, withdrawals unchanged, one "Overdraft Fee" entry of −15, and nothing else changes |
| `AccountProperties.BaseMonthlyProcEffect` | ThugBankCrazy.cpp:81-88 | the base cycle leaves balance (b − c) + (b − c) × rate / 12, logs "Service Charge" −c only if c > 0, then "Interest", and zeroes the counters |
| `AccountProperties.MonthlyProcEffect` | ThugBankCrazy.cpp:75-88 | pending charge (charges + withdrawals beyond 4 for savings, charges + 5 + 0.10 × withdrawals for checking) is deducted before interest; the log order, the counter resets and the savings freeze below 25 (status otherwise unchanged) |
| `AccountProperties.MonthlyProcResetsCounters` | ThugBankCrazy.cpp:87 | after monthly processing, deposits, withdrawals and pending charges are 0, for both variants |
| `AccountProperties.OverdraftFeeChargedTwice` | ThugBankCrazy.cpp:172-182 | after an overdraft and then monthly processing, the $15 fee appears in the service charge as well, so the balance before interest is 30 + 5 + 0.10 × withdrawals + earlier charges below the starting balance |
| `AccountProperties.ApplyKeepsInvariant` | ThugBankCrazy.cpp:39-41 | each operation keeps the account consistent, only appends to the history, and keeps variant and PIN |
| `AccountProperties.RunKeepsInvariant` | ThugBankCrazy.cpp:349-369 | any sequence of account-menu operations keeps the account consistent and leaves the old history as a prefix of the new one |
| `AccountProperties.LogTracksBalance` | ThugBankCrazy.cpp:39-45 | from a new account, after any session the balance is the last logged `balanceAfter` (0 if nothing is logged), and the PIN is unchanged |
| `AccountProperties.ReactivationOnlyByDeposit` | ThugBankCrazy.cpp:113-130 | one operation makes a frozen savings account active iff it is a deposit leaving the balance at 25 or more |
| `AccountProperties.FrozenUntilDeposit` | ThugBankCrazy.cpp:113-130 | over any session, a frozen savings account stays frozen and refuses every withdrawal until a deposit brings the balance to 25 or more; deposits ending below 25, refused ones included, leave it frozen |
| `AccountProperties.SavingsFreezeScenario` | ThugBankCrazy.cpp:108-124 | deposit 100 gives 100 and active; withdraw 80 gives 20 and frozen; withdraw 5 is then refused |
| `AccountProperties.CheckingOverdraftScenario` | ThugBankCrazy.cpp:170-177 | withdrawing 50 from a new checking account gives balance −15, charges 15, and a history of one "Overdraft Fee" of −15 |
| `AccountProperties.CheckingServiceChargeScenario` | ThugBankCrazy.cpp:180-182 | three checking withdrawals in a cycle give a service charge entry of −5.30, logged before interest |
| `AccountProperties.InvalidDepositReactivates` | ThugBankCrazy.cpp:121-124 | a reachable frozen savings account with at least 25 is changed, and reactivated, by a deposit of 0 |
| `BankRegistry.Bank.constructor` | ThugBankCrazy.cpp:256 | an empty registry whose counter is 1 |
| `BankRegistry.Bank.CreateAccount` | ThugBankCrazy.cpp:263-274 | for "Savings"/"Checking": returns the old counter and advances it by 1; registers under that number a fresh account of that variant with the PIN (balance 0, active) that authenticates; changes no other entry; the number was free. Any other name: returns −1, and the map and counter are unchanged |
| `BankRegistry.Bank.GetAccount` | ThugBankCrazy.cpp:276-279 | returns an account iff the number is registered, and then the registered one |
| `BankRegistry.Bank.Authenticate` | ThugBankCrazy.cpp:281-284 | true iff the number is registered and its PIN equals the given one exactly |
| `BankRegistry.NumbersInCreationOrder` | ThugBankCrazy.cpp:263-284 | numbers start at 1 and go up by one; a refused type name does not use one up; each account authenticates with its own PIN only |

## Left out

- File persistence is not modelled: `save`/`load` of both variants and `Bank::saveToFile`/`loadFromFile`. These are stream I/O with no validation, and printing doubles at default precision is not lossless.
- BankRegistry.Bank.constructor: models the case where no saved registry exists. The program first tries to load one from `bank_data.txt`.
- Console output, `printTransactions`, the menus and the `main` loop are not modelled. The account menu's operations are modelled only as the sequence `Run` applies. A refused operation shows up as "no state change" instead of a message.
- `getCurrentDate` is not modelled: it reads the clock. The date is a parameter of every operation.
- `monthlyProc` reads the clock once for the "Service Charge" entry and again for the "Interest" entry, so the two can carry different dates (around midnight). The model stamps both with its one `date` parameter, and `BaseMonthlyProcEffect` and `MonthlyProcEffect` state that they share it.
- `double` arithmetic is not modelled. Money is an exact `real`, so the rounding of `0.10 × withdrawals` and `rate / 12` is not captured.
- Fixed-width integers are not modelled. The counters are unbounded `nat` and the account number an unbounded `int`, so `int` overflow of `deposits`, `withdrawals` and `nextAccountNumber` is not captured. The counters are only ever incremented from 0 or reset, so they never go negative.
- The destructor and raw-pointer ownership are not modelled. Accounts are Dafny objects, and `Bank.Valid` states that no object is registered under two numbers.
- Accounts.Account.GetPIN: has no contract beyond returning the field. The PIN is shown to be unchanged by every operation in `ApplyKeepsInvariant` and `LogTracksBalance`.
