/** The objects of the State pattern: an account and its current state object.

    A state object holds the balance and performs deposits and withdrawals; when
    a threshold is crossed it installs a freshly built successor in the account,
    handing over the balance it has just computed. The state object's class
    (Regular, Gold, Overdrawn) is fixed when it is built, so it is a `const`
    here. Instead of a stored back-reference to its account, a state object is
    given the account it serves as a parameter. */
module BankAccounts {
  import opened AccountRules

  class AccountState {
    const kind: StateKind
    var balance: real

    constructor (kind: StateKind, balance: real)
      ensures this.kind == kind && this.balance == balance
    {
      this.kind := kind;
      this.balance := balance;
    }

    function Snap(): Snapshot
      reads this
    {
      Snapshot(kind, balance)
    }

    /** This state performs a deposit for `account`, of which it is the current state. */
    method Deposit(account: BankAccount, amount: real) returns (notice: Notice)
      requires account.state == this
      modifies this, account
      ensures account.Snap() == Step(old(Snap()), Operation.Deposit(amount))
      ensures notice == NoticeOf(old(Snap()), Operation.Deposit(amount))
      ensures account.state == this || fresh(account.state)
      ensures account.state != this ==> account.state.kind != kind && account.state.balance == balance
    {
      match kind
      case Regular =>
        notice := Depositing(kind, amount);
        balance := balance + amount;
        if balance >= GoldThreshold {
          account.state := new AccountState(Gold, balance);
        }
      case Gold =>
        notice := DepositingWithBonus(amount, GoldBonus(amount));
        balance := balance + (amount + GoldBonus(amount));
      case Overdrawn =>
        notice := Depositing(kind, amount);
        balance := balance + amount;
        if balance >= 0.0 {
          account.state := new AccountState(Regular, balance);
        }
    }

    /** This state performs a withdrawal for `account`, of which it is the current state. */
    method Withdraw(account: BankAccount, amount: real) returns (notice: Notice)
      requires account.state == this
      modifies this, account
      ensures account.Snap() == Step(old(Snap()), Operation.Withdraw(amount))
      ensures notice == NoticeOf(old(Snap()), Operation.Withdraw(amount))
      ensures account.state == this || fresh(account.state)
      ensures account.state != this ==> account.state.kind != kind && account.state.balance == balance
    {
      match kind
      case Regular =>
        notice := Withdrawing(kind, amount, balance);
        balance := balance - amount;
        if balance < 0.0 {
          account.state := new AccountState(Overdrawn, balance);
        }
      case Gold =>
        notice := Withdrawing(kind, amount, balance);
        balance := balance - amount;
        if balance < GoldThreshold && balance >= 0.0 {
          account.state := new AccountState(Regular, balance);
        } else if balance < 0.0 {
          account.state := new AccountState(Overdrawn, balance);
        }
      case Overdrawn =>
        notice := CannotWithdraw(balance);
    }
  }

  class BankAccount {
    var state: AccountState

    /** A new account is Regular with the initial balance. */
    constructor ()
      ensures fresh(state)
      ensures state.kind == Regular && Balance() == InitialBalance
      ensures Snap() == Initial()
    {
      state := new AccountState(Regular, InitialBalance);
    }

    /** The account's balance is the one its current state holds. */
    function Balance(): real
      reads this, state
    {
      state.balance
    }

    function Snap(): Snapshot
      reads this, state
    {
      state.Snap()
    }

    /** A deposit is handed to the current state, which may replace itself. */
    method Deposit(amount: real) returns (notice: Notice)
      modifies this, state
      ensures Snap() == Step(old(Snap()), Operation.Deposit(amount))
      ensures notice == NoticeOf(old(Snap()), Operation.Deposit(amount))
      ensures state == old(state) || fresh(state)
      ensures state != old(state) ==> state.kind != old(state.kind) && state.balance == old(state).balance
    {
      notice := state.Deposit(this, amount);
    }

    /** A withdrawal is handed to the current state, which may replace itself. */
    method Withdraw(amount: real) returns (notice: Notice)
      modifies this, state
      ensures Snap() == Step(old(Snap()), Operation.Withdraw(amount))
      ensures notice == NoticeOf(old(Snap()), Operation.Withdraw(amount))
      ensures state == old(state) || fresh(state)
      ensures state != old(state) ==> state.kind != old(state.kind) && state.balance == old(state).balance
    {
      notice := state.Withdraw(this, amount);
    }
  }
}
