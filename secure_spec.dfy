/** The PIN-and-limit wrapper on values: the specification that the class
    `Accounts.SecuredAccount` is proved against. The wrapper keeps no state of its
    own; each operation maps the wrapped account's state to its new state. */
module SecureSpec {
  import opened AccountSpec

  /** The cap on a single secured withdrawal. */
  const WithdrawalLimit: real := 500.0

  /** A secured call either is refused by the wrapper (wrong PIN, over the cap) or is
      passed to the wrapped account, whose outcome it carries unchanged. */
  datatype SecureOutcome = Delegated(outcome: Outcome) | Denied | LimitExceeded

  datatype SecureTransition = SecureTransition(after: AccountState, outcome: SecureOutcome)

  predicate Succeeded(t: SecureTransition)
  {
    t.outcome == Delegated(Ok)
  }

  /** secureDeposit: the PIN is checked before anything else. */
  function SecureDeposit(pin: string, s: AccountState, amount: real, inputPin: string): (t: SecureTransition)
    ensures inputPin != pin ==> t == SecureTransition(s, Denied)
    ensures inputPin == pin ==> t.outcome == Delegated(Deposit(s, amount).outcome)
    ensures inputPin == pin ==> t.after == Deposit(s, amount).after
    ensures Succeeded(t) <==> inputPin == pin && s.active && amount >= 0.0
    ensures !Succeeded(t) ==> t.after == s
  {
    if inputPin != pin then SecureTransition(s, Denied)
    else
      var d := Deposit(s, amount);
      SecureTransition(d.after, Delegated(d.outcome))
  }

  /** secureWithdraw: the PIN first, then the cap, then the wrapped account's own checks. */
  function SecureWithdraw(pin: string, s: AccountState, amount: real, inputPin: string): (t: SecureTransition)
    ensures inputPin != pin ==> t == SecureTransition(s, Denied)
    ensures inputPin == pin && amount > WithdrawalLimit ==> t == SecureTransition(s, LimitExceeded)
    ensures inputPin == pin && amount <= WithdrawalLimit ==>
              t.outcome == Delegated(Withdraw(s, amount).outcome) && t.after == Withdraw(s, amount).after
    ensures Succeeded(t) <==>
              inputPin == pin && s.active && amount <= WithdrawalLimit && amount <= s.balance
    ensures !Succeeded(t) ==> t.after == s
    ensures t.after.balance >= s.balance - WithdrawalLimit
  {
    if inputPin != pin then SecureTransition(s, Denied)
    else if amount > WithdrawalLimit then SecureTransition(s, LimitExceeded)
    else
      var w := Withdraw(s, amount);
      SecureTransition(w.after, Delegated(w.outcome))
  }

  /** Secured calls issued against one wrapped account. */
  datatype SecureOp = SecureDepositOp(amount: real, inputPin: string)
                    | SecureWithdrawOp(amount: real, inputPin: string)

  function SecureStep(pin: string, s: AccountState, op: SecureOp): SecureTransition
  {
    match op
    case SecureDepositOp(a, p) => SecureDeposit(pin, s, a, p)
    case SecureWithdrawOp(a, p) => SecureWithdraw(pin, s, a, p)
  }

  function SecureRun(pin: string, s: AccountState, ops: seq<SecureOp>): AccountState
    decreases |ops|
  {
    if ops == [] then s else SecureRun(pin, SecureStep(pin, s, ops[0]).after, ops[1..])
  }

  /** Someone who does not know the PIN cannot change the account at all: a run of
      secured calls that all carry a wrong PIN leaves balance, flag and log as they were. */
  lemma {:induction false} WrongPinRunChangesNothing(pin: string, s: AccountState, ops: seq<SecureOp>)
    requires forall k :: 0 <= k < |ops| ==> ops[k].inputPin != pin
    ensures SecureRun(pin, s, ops) == s
    decreases |ops|
  {
    if ops != [] {
      WrongPinRunChangesNothing(pin, s, ops[1..]);
    }
  }

  /** Through the wrapper, n calls lower the balance by at most 500 * n. */
  lemma {:induction false} SecureRunWithdrawsAtMostLimitPerCall(pin: string, s: AccountState, ops: seq<SecureOp>)
    ensures SecureRun(pin, s, ops).balance >= s.balance - WithdrawalLimit * (|ops| as real)
    decreases |ops|
  {
    if ops != [] {
      var next := SecureStep(pin, s, ops[0]).after;
      assert next.balance >= s.balance - WithdrawalLimit;
      SecureRunWithdrawsAtMostLimitPerCall(pin, next, ops[1..]);
    }
  }
}
