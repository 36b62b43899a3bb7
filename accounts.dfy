/** The account and its secured wrapper as objects updated in place. Each method is
    proved against the value-level specification in AccountSpec and SecureSpec. */
module Accounts {
  import opened Notifications
  import opened AccountSpec
  import opened SecureSpec

  class Account {
    const accountNumber: string
    var balance: real
    var active: bool
    var observers: seq<ObserverId>
    /** Every update call delivered to an observer, oldest first. */
    var log: seq<Notification>

    function State(): AccountState
      reads this
    {
      AccountState(balance, active, observers, log)
    }

    /** The initial balance is taken as given, without validation. */
    constructor (accountNumber: string, initialBalance: real)
      ensures this.accountNumber == accountNumber
      ensures State() == Open(initialBalance)
    {
      this.accountNumber := accountNumber;
      balance := initialBalance;
      active := true;
      observers := [];
      log := [];
    }

    /** Appends, without removing duplicates. */
    method AddObserver(o: ObserverId)
      modifies this`observers
      ensures State() == AccountSpec.AddObserver(old(State()), o)
    {
      observers := observers + [o];
    }

    /** Calls every observer's update once, in the order they were added. */
    method NotifyObservers(e: Event)
      modifies this`log
      ensures log == old(log) + FanOut(observers, e)
    {
      var i := 0;
      while i < |observers|
        invariant 0 <= i <= |observers|
        invariant log == old(log) + FanOut(observers[..i], e)
      {
        assert observers[..i + 1] == observers[..i] + [observers[i]];
        FanOutSnoc(observers[..i], observers[i], e);
        log := log + [Notification(observers[i], e)];
        i := i + 1;
      }
      assert observers[..i] == observers;
    }

    method Deposit(amount: real) returns (outcome: Outcome)
      modifies this
      ensures State() == AccountSpec.Deposit(old(State()), amount).after
      ensures outcome == AccountSpec.Deposit(old(State()), amount).outcome
    {
      if !active {
        return InvalidOperation;
      }
      if amount < 0.0 {
        return NegativeDeposit;
      }
      balance := balance + amount;
      NotifyObservers(Deposited(amount));
      outcome := Ok;
    }

    method Withdraw(amount: real) returns (outcome: Outcome)
      modifies this
      ensures State() == AccountSpec.Withdraw(old(State()), amount).after
      ensures outcome == AccountSpec.Withdraw(old(State()), amount).outcome
    {
      if !active {
        return InvalidOperation;
      }
      if amount > balance {
        return Overdraw;
      }
      balance := balance - amount;
      NotifyObservers(Withdrew(amount));
      outcome := Ok;
    }

    function GetBalance(): (b: real)
      reads this
      ensures b == State().balance
    {
      balance
    }

    method CloseAccount()
      modifies this
      ensures State() == Close(old(State()))
    {
      active := false;
      NotifyObservers(AccountClosed);
    }
  }

  /** Wraps a shared account: the caller may still use `base` directly. */
  class SecuredAccount {
    const base: Account
    const pin: string

    constructor (base: Account, pin: string)
      ensures this.base == base && this.pin == pin
    {
      this.base := base;
      this.pin := pin;
    }

    /** The PIN check that comes before every secured operation. */
    function ValidatePin(inputPin: string): (ok: bool)
      ensures ok <==> inputPin == pin
    {
      pin == inputPin
    }

    method SecureDeposit(amount: real, inputPin: string) returns (r: SecureOutcome)
      modifies base
      ensures base.State() == SecureSpec.SecureDeposit(pin, old(base.State()), amount, inputPin).after
      ensures r == SecureSpec.SecureDeposit(pin, old(base.State()), amount, inputPin).outcome
    {
      if !ValidatePin(inputPin) {
        return Denied;
      }
      var o := base.Deposit(amount);
      r := Delegated(o);
    }

    method SecureWithdraw(amount: real, inputPin: string) returns (r: SecureOutcome)
      modifies base
      ensures base.State() == SecureSpec.SecureWithdraw(pin, old(base.State()), amount, inputPin).after
      ensures r == SecureSpec.SecureWithdraw(pin, old(base.State()), amount, inputPin).outcome
    {
      if !ValidatePin(inputPin) {
        return Denied;
      }
      if amount > WithdrawalLimit {
        return LimitExceeded;
      }
      var o := base.Withdraw(amount);
      r := Delegated(o);
    }

    /** The wrapped account's live balance; the wrapper holds no copy of it. */
    function GetBalance(): (b: real)
      reads base
      ensures b == base.GetBalance()
    {
      base.balance
    }
  }
}
