/** An example run of the two classes with fixed inputs, and what their contracts
    let a client conclude. It starts like the driver (one secured deposit, one secured
    withdrawal, a balance query) and goes on with calls the driver does not make. */
module Scenario {
  import opened Notifications
  import opened AccountSpec
  import opened SecureSpec
  import opened Accounts

  /** Balance 100, one logger, deposit 50 and then withdraw 700 and 150, each with
      the right PIN; then a deposit with a wrong PIN and a direct deposit on the
      wrapped account. */
  method DriverSequence() returns (deposit: SecureOutcome, capped: SecureOutcome,
                                   withdrawal: SecureOutcome, finalBalance: real,
                                   delivered: seq<Notification>)
    ensures deposit == Delegated(Ok) && capped == LimitExceeded && withdrawal == Delegated(Ok)
    ensures finalBalance == 0.0
    ensures delivered == [Notification(0, Deposited(50.0)), Notification(0, Withdrew(150.0))]
  {
    var account := new Account("123456", 100.0);
    account.AddObserver(0);
    var secure := new SecuredAccount(account, "4321");

    deposit := secure.SecureDeposit(50.0, "4321");
    assert secure.GetBalance() == 150.0;
    capped := secure.SecureWithdraw(700.0, "4321");
    assert secure.GetBalance() == 150.0;
    withdrawal := secure.SecureWithdraw(150.0, "4321");
    finalBalance := secure.GetBalance();
    delivered := account.log;

    var wrongPin := secure.SecureDeposit(10.0, "0000");
    assert wrongPin == Denied && account.log == delivered;

    // The wrapper reads the shared account, so a direct deposit is visible through it.
    var direct := account.Deposit(25.0);
    assert direct == Ok && secure.GetBalance() == 25.0;
  }
}
