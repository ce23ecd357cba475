/** The account scenarios of the project's unit tests, run against the classes.
    Each method builds a new account, performs the test's operations and
    returns the class of the final state and the final balance. */
module BankAccountTests {
  import opened AccountRules
  import opened BankAccounts

  method InitialStateIsRegular() returns (kind: StateKind, balance: real)
    ensures kind == Regular && balance == 200.0
  {
    var account := new BankAccount();
    kind, balance := account.state.kind, account.Balance();
  }

  method DepositEnoughForGold() returns (kind: StateKind, balance: real)
    ensures kind == Gold && balance == 1200.0
  {
    var account := new BankAccount();
    var notice := account.Deposit(1000.0);
    kind, balance := account.state.kind, account.Balance();
  }

  method WithdrawFromGoldKeepsGold() returns (kind: StateKind, balance: real)
    ensures kind == Gold && balance == 1300.0
  {
    var account := new BankAccount();
    var deposited := account.Deposit(1500.0);
    var withdrawn := account.Withdraw(400.0);
    kind, balance := account.state.kind, account.Balance();
  }

  /** The test's name speaks of a change of state, but 200 + 1500 - 600 is
      still above the Gold threshold, and the test expects Gold. */
  method WithdrawSixHundredFromGoldStaysGold() returns (kind: StateKind, balance: real)
    ensures kind == Gold && balance == 1100.0
  {
    var account := new BankAccount();
    var deposited := account.Deposit(1500.0);
    var withdrawn := account.Withdraw(600.0);
    kind, balance := account.state.kind, account.Balance();
  }

  method WithdrawMoreThanBalanceOverdraws() returns (kind: StateKind, balance: real)
    ensures kind == Overdrawn && balance == -200.0
  {
    var account := new BankAccount();
    var deposited := account.Deposit(200.0);
    var withdrawn := account.Withdraw(600.0);
    kind, balance := account.state.kind, account.Balance();
  }

  method DepositShortOfDebtKeepsOverdrawn() returns (kind: StateKind, balance: real, refused: Notice)
    ensures kind == Overdrawn && balance == -100.0
    ensures refused == CannotWithdraw(-100.0)
  {
    var account := new BankAccount();
    var n1 := account.Deposit(100.0);
    var n2 := account.Withdraw(500.0);
    var n3 := account.Deposit(100.0);
    // one more withdrawal while Overdrawn is refused and changes nothing
    refused := account.Withdraw(50.0);
    kind, balance := account.state.kind, account.Balance();
  }

  /** 200 + 100 - 300 is exactly zero, which is Regular, not Overdrawn. */
  method DepositCoveringDebtEndsRegular() returns (kind: StateKind, balance: real, atZero: StateKind)
    ensures atZero == Regular
    ensures kind == Regular && balance == 200.0
  {
    var account := new BankAccount();
    var n1 := account.Deposit(100.0);
    var n2 := account.Withdraw(300.0);
    atZero := account.state.kind;
    var n3 := account.Deposit(200.0);
    kind, balance := account.state.kind, account.Balance();
  }
}
