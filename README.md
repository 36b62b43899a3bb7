# Bank account with observers and a PIN-secured wrapper

This project models the account logic of `BankAccountTest.java` and proves properties about it. There are two parts.

- **`BankAccount`** holds a balance, an active flag and an ordered list of observers.
  - `deposit` fails on a closed account, then fails on a negative amount.
  - `withdraw` fails on a closed account, then fails on an amount above the balance.
  - When either succeeds, it changes the balance and sends one message to every observer, in the order the observers were added.
  - `closeAccount` always makes the account inactive and always notifies the observers.
- **`SecureBankAccount`** wraps a shared `BankAccount`.
  - It checks a PIN first. For a withdrawal it then checks a cap of 500 per call.
  - Only then does it hand the call to the wrapped account.
  - Its balance query reads the wrapped account's current balance.

The model has five modules:

- `Notifications` (`notifications.dfy`): observers are ids. Sending an event to an observer appends one `Notification(observer, event)` to the account's log. `FanOut` is one round of such messages.
- `AccountSpec` (`account_spec.dfy`): the account as a state machine on values. The source's exceptions become the outcomes `NegativeDeposit`, `Overdraw` and `InvalidOperation`; success is `Ok`. `Run` applies a sequence of operations.
- `SecureSpec` (`secure_spec.dfy`): the wrapper as functions from the wrapped account's state to its new state and a `SecureOutcome`. The outcome is `Denied` (wrong PIN), `LimitExceeded` (over 500), or `Delegated(o)`, which carries the wrapped account's outcome `o` unchanged.
- `Accounts` (`accounts.dfy`): the classes `Account` and `SecuredAccount`, whose methods update fields in place. Every method is proved against the matching function in `AccountSpec` or `SecureSpec`. `SecuredAccount` holds a reference to a shared `Account`, and its methods modify only that account.
- `Scenario` (`scenario.dfy`): an example run with fixed inputs, and what the class contracts let a client conclude. It starts with the driver's secured deposit, secured withdrawal and balance query. It then adds a second secured withdrawal, a deposit with a wrong PIN and a direct deposit on the wrapped account, none of which the driver makes.

Balances and amounts are `real`. `validatePin` is `SecuredAccount.ValidatePin`, which is string equality.

Two behaviours of the code that a reader might not expect are kept as written:

- A negative withdrawal amount is not rejected. It raises the balance.
- `closeAccount` on an account that is already closed notifies the observers again. So closing twice gives the same balance, flag and observers as closing once, but a second round of "Account closed." messages.

## Model

| member | source | states |
|---|---|---|
| `Notifications.FanOut` | BankAccountTest.java:61-65 | one round of notification makes exactly one delivery per observer |
| `Notifications.FanOutAt` | BankAccountTest.java:61-65 | the i-th delivery goes to the i-th observer added and carries the event |
| `Notifications.FanOutSnoc` | BankAccountTest.java:61-65 | notifying one more observer adds exactly its delivery at the end, so the loop can build the round observer by observer |
| `Notifications.FanOutNotifiesEach` | BankAccountTest.java:61-65 | appending a round to a log keeps the old log as a prefix and adds one delivery per observer, in insertion order |
| `AccountSpec.Open` | BankAccountTest.java:51-55 | a new account is active, has no observers, has an empty log and keeps any initial balance unvalidated |
| `AccountSpec.AddObserver` | BankAccountTest.java:57-59 | the observer is appended at the end, with no deduplication; nothing else changes |
| `AccountSpec.Deposit` | BankAccountTest.java:67-73 | closed gives InvalidOperation for every amount, checked first; on an active account a negative amount gives NegativeDeposit; it succeeds exactly when the account is active and the amount is >= 0; every failure leaves the state unchanged; a success adds the amount to the balance and sends one Deposited(amount) to each observer in order |
| `AccountSpec.Withdraw` | BankAccountTest.java:75-81 | closed gives InvalidOperation for every amount, checked first; on an active account an amount above the balance gives Overdraw; it succeeds exactly when the account is active and amount <= balance, negative amounts included; every failure leaves the state unchanged; a success subtracts the amount, leaves the balance >= 0 and sends one Withdrew(amount) to each observer in order |
| `AccountSpec.Close` | BankAccountTest.java:87-90 | the account is always inactive afterwards; the balance and observers are unchanged; one AccountClosed goes to each observer in order |
| `AccountSpec.BalanceStaysNonNegative` | BankAccountTest.java:67-81 | if the balance is >= 0 before a deposit or withdraw, it is >= 0 afterwards, whether the call succeeds or fails |
| `AccountSpec.CloseTwice` | BankAccountTest.java:87-90 | closing twice leaves the same balance, flag and observers as closing once, and adds a second round of AccountClosed messages |
| `AccountSpec.RunKeepsBalanceNonNegative` | BankAccountTest.java:57-90 | a non-negative balance stays non-negative through any sequence of deposit, withdraw, close and addObserver calls |
| `AccountSpec.ClosedIsTerminal` | BankAccountTest.java:67-90 | once an account is closed, no sequence of operations makes it active again or changes its balance |
| `SecureSpec.SecureDeposit` | BankAccountTest.java:106-116 | a wrong PIN is Denied and leaves the wrapped account's balance, flag and log unchanged; with the right PIN the result is the wrapped deposit's outcome and state; it succeeds exactly when the PIN matches, the account is active and the amount is >= 0; every other outcome changes nothing |
| `SecureSpec.SecureWithdraw` | BankAccountTest.java:106-128 | a wrong PIN is Denied, checked before the cap; with the right PIN an amount above 500 is LimitExceeded and changes nothing; otherwise the result is the wrapped withdraw's outcome and state; it succeeds exactly when the PIN matches, the account is active and amount <= min(500, balance); one call lowers the balance by at most 500 |
| `SecureSpec.WrongPinRunChangesNothing` | BankAccountTest.java:110-122 | any sequence of secured calls that all carry a wrong PIN leaves the wrapped account exactly as it was |
| `SecureSpec.SecureRunWithdrawsAtMostLimitPerCall` | BankAccountTest.java:110-128 | n secured calls lower the wrapped balance by at most 500 * n |
| `Accounts.Account.constructor` | BankAccountTest.java:51-55 | the new object keeps the account number and is in the state Open(initialBalance) |
| `Accounts.Account.AddObserver` | BankAccountTest.java:57-59 | changes only the observer list, as AccountSpec.AddObserver says |
| `Accounts.Account.NotifyObservers` | BankAccountTest.java:61-65 | the loop appends exactly one round, FanOut(observers, e), to the log and changes nothing else |
| `Accounts.Account.Deposit` | BankAccountTest.java:67-73 | the new state and the outcome are those of AccountSpec.Deposit on the old state |
| `Accounts.Account.Withdraw` | BankAccountTest.java:75-81 | the new state and the outcome are those of AccountSpec.Withdraw on the old state |
| `Accounts.Account.GetBalance` | BankAccountTest.java:83-85 | reads the current balance and changes nothing |
| `Accounts.Account.CloseAccount` | BankAccountTest.java:87-90 | the new state is AccountSpec.Close of the old state |
| `Accounts.SecuredAccount.constructor` | BankAccountTest.java:100-104 | the wrapper holds the given account by reference, plus the PIN |
| `Accounts.SecuredAccount.ValidatePin` | BankAccountTest.java:106-108 | true exactly when the input PIN equals the stored PIN |
| `Accounts.SecuredAccount.SecureDeposit` | BankAccountTest.java:110-116 | modifies only the wrapped account; its new state and the outcome are those of SecureSpec.SecureDeposit |
| `Accounts.SecuredAccount.SecureWithdraw` | BankAccountTest.java:118-128 | modifies only the wrapped account; its new state and the outcome are those of SecureSpec.SecureWithdraw |
| `Accounts.SecuredAccount.GetBalance` | BankAccountTest.java:130-132 | always equals the wrapped account's current balance, including after direct changes to that account |
| `Scenario.DriverSequence` | BankAccountTest.java:148-176 | an example run that extends the driver's one secured deposit and one secured withdrawal: from balance 100 with one observer, deposit 50 succeeds; withdraw 700 is LimitExceeded; withdraw 150 succeeds; the balance is then 0 and the observer got exactly "Deposited 50" then "Withdrew 150"; a later wrong-PIN deposit changes nothing, and a direct deposit on the wrapped account shows through the wrapper's balance |

## Left out

- `main`: console input (`Scanner`), printed prompts and exception catching are I/O. `Scenario.DriverSequence` is an example run in its place. It begins with the driver's one secured deposit, one secured withdrawal and balance query, then makes further calls that the driver does not make.
- `TransactionLogger.update` printing to the console. An observer is an id, and a delivery is an entry in the account's `log`, not printed text.
- Message text: the exact text of the messages ("Deposited $50.0") depends on Java's conversion of a `double` to a string. Deliveries carry the event datatype instead.
- The wrapper's printed denials ("Invalid PIN. Transaction denied.", "Withdrawal limit exceeded."). They are the outcomes `Denied` and `LimitExceeded`. In Java the caller cannot tell a denial from a success except by the console output.
- `double` arithmetic: balances and amounts are exact `real`s, so rounding, infinities and NaN are not modelled. In Java, a NaN amount passes every guard.
- The state that `SecureBankAccount` inherits from `BankAccount` is left out: the balance copied by `super(...)`, its own observer list, and its inherited `deposit`, `withdraw` and `closeAccount`. No secured operation reads them, so the wrapper is plain composition.
- Observers are assumed to return normally from `update` and never to call back into the account. In Java this can fail in three ways: a null observer (accepted by `addObserver`, line 58) throws a NullPointerException in the loop at line 63; an observer's `update` can throw; and an `update` that calls `addObserver` makes the loop throw a ConcurrentModificationException. Each exception comes after `deposit`, `withdraw` or `closeAccount` has already changed the balance (line 71 or 79) or the flag (line 88). So in Java the call fails, its change stays, and the remaining observers are not notified. The model never has these cases: `AccountSpec.Deposit`, `AccountSpec.Withdraw` and `AccountSpec.Close` always finish the whole round of notifications. Observer ids cannot be null.
- Null references: a null PIN (`pin.equals` throws) and a null wrapped account cannot occur, because Dafny strings and object references here are non-null.
- The exception classes are kept only as outcome tags. Their message strings are left out.
