/** The transition rules of the bank-account State pattern, as values.

    An account is, at any moment, in one of three states: Regular, Gold or
    Overdrawn. The state that is current performs every deposit and
    withdrawal: it updates the balance and may hand the account over to a
    successor state built from the new balance. `Step` is that behaviour as a
    function of the current state and balance; the classes in bank_account.dfy
    are proved to follow it. */
module AccountRules {

  /** The three concrete state classes: RegularState, GoldState, OverdrawnState. */
  datatype StateKind = Regular | Gold | Overdrawn

  /** A request made of an account. */
  datatype Operation = Deposit(amount: real) | Withdraw(amount: real)

  /** What can be observed of an account: the class of its current state
      object and the balance that object holds. */
  datatype Snapshot = Snapshot(kind: StateKind, balance: real)

  /** The notification line a state writes for each operation. */
  datatype Notice =
    | Depositing(kind: StateKind, amount: real)
    | DepositingWithBonus(amount: real, bonus: real)
    | Withdrawing(kind: StateKind, amount: real, previous: real)
    | CannotWithdraw(balance: real)

  /** A new account starts in Regular with this balance. */
  const InitialBalance: real := 200.0

  /** The balance from which a Regular account is promoted to Gold. */
  const GoldThreshold: real := 1000.0

  function Initial(): Snapshot {
    Snapshot(Regular, InitialBalance)
  }

  /** The bonus a Gold account earns on top of a deposit: a tenth of it. */
  function GoldBonus(amount: real): (bonus: real)
    ensures 10.0 * bonus == amount
  {
    amount / 10.0
  }

  /** One operation performed by the current state. */
  function Step(s: Snapshot, op: Operation): Snapshot {
    match op
    case Deposit(a) =>
      (match s.kind
       case Regular =>
         var b := s.balance + a;
         if b >= GoldThreshold then Snapshot(Gold, b) else Snapshot(Regular, b)
       case Gold =>
         Snapshot(Gold, s.balance + (a + GoldBonus(a)))
       case Overdrawn =>
         var b := s.balance + a;
         if b >= 0.0 then Snapshot(Regular, b) else Snapshot(Overdrawn, b))
    case Withdraw(a) =>
      (match s.kind
       case Regular =>
         var b := s.balance - a;
         if b < 0.0 then Snapshot(Overdrawn, b) else Snapshot(Regular, b)
       case Gold =>
         var b := s.balance - a;
         if b < GoldThreshold && b >= 0.0 then Snapshot(Regular, b)
         else if b < 0.0 then Snapshot(Overdrawn, b)
         else Snapshot(Gold, b)
       case Overdrawn =>
         s)
  }

  /** The notification the current state writes for an operation. */
  function NoticeOf(s: Snapshot, op: Operation): Notice {
    match op
    case Deposit(a) =>
      if s.kind == Gold then DepositingWithBonus(a, GoldBonus(a)) else Depositing(s.kind, a)
    case Withdraw(a) =>
      if s.kind == Overdrawn then CannotWithdraw(s.balance) else Withdrawing(s.kind, a, s.balance)
  }

  /** A sequence of operations performed one after another. */
  function Run(s: Snapshot, ops: seq<Operation>): Snapshot
    decreases |ops|
  {
    if ops == [] then s else Run(Step(s, ops[0]), ops[1..])
  }

  /** The invariant every state keeps about its balance. */
  predicate Consistent(s: Snapshot) {
    match s.kind
    case Regular => s.balance >= 0.0
    case Gold => s.balance >= GoldThreshold
    case Overdrawn => s.balance < 0.0
  }

  /** The stronger banding in which Regular also lies below the Gold threshold. */
  predicate Banded(s: Snapshot) {
    Consistent(s) && (s.kind == Regular ==> s.balance < GoldThreshold)
  }

  /** Operations for which the invariant is kept: deposits must not be negative.
      The source puts no constraint on the amount; this is what the invariant needs. */
  predicate Admissible(op: Operation) {
    op.Deposit? ==> op.amount >= 0.0
  }

  predicate AllAdmissible(ops: seq<Operation>) {
    forall i :: 0 <= i < |ops| ==> Admissible(ops[i])
  }

  // ---- The transition table, state by state ----

  lemma RegularDepositRule(balance: real, amount: real)
    ensures var r := Step(Snapshot(Regular, balance), Deposit(amount));
      && r.balance == balance + amount
      && (r.kind == Gold <==> balance + amount >= GoldThreshold)
      && (r.kind == Regular <==> balance + amount < GoldThreshold)
  {
  }

  lemma RegularWithdrawRule(balance: real, amount: real)
    ensures var r := Step(Snapshot(Regular, balance), Withdraw(amount));
      && r.balance == balance - amount
      && (r.kind == Overdrawn <==> balance - amount < 0.0)
      && (r.kind == Regular <==> balance - amount >= 0.0)
  {
  }

  lemma GoldDepositRule(balance: real, amount: real)
    ensures var r := Step(Snapshot(Gold, balance), Deposit(amount));
      && r.balance == balance + amount + amount / 10.0
      && r.kind == Gold
  {
  }

  lemma GoldWithdrawRule(balance: real, amount: real)
    ensures var r := Step(Snapshot(Gold, balance), Withdraw(amount));
      && r.balance == balance - amount
      && (r.kind == Regular <==> 0.0 <= balance - amount < GoldThreshold)
      && (r.kind == Overdrawn <==> balance - amount < 0.0)
      && (r.kind == Gold <==> balance - amount >= GoldThreshold)
  {
  }

  lemma OverdrawnDepositRule(balance: real, amount: real)
    ensures var r := Step(Snapshot(Overdrawn, balance), Deposit(amount));
      && r.balance == balance + amount
      && (r.kind == Regular <==> balance + amount >= 0.0)
      && (r.kind == Overdrawn <==> balance + amount < 0.0)
  {
  }

  /** A withdrawal while Overdrawn is refused: nothing changes, and the refusal
      is the one case in which the notice says so. */
  lemma OverdrawnWithdrawRefused(s: Snapshot, op: Operation)
    ensures s.kind == Overdrawn && op.Withdraw? ==> Step(s, op) == s
    ensures NoticeOf(s, op).CannotWithdraw? <==> s.kind == Overdrawn && op.Withdraw?
    ensures NoticeOf(s, op).CannotWithdraw? ==> NoticeOf(s, op).balance == s.balance
  {
  }

  /** How much a step moves the balance: a deposit adds the amount (plus a
      tenth in Gold), a withdrawal takes the amount except while Overdrawn. */
  lemma StepChangesBalanceByAmount(s: Snapshot, op: Operation)
    ensures Step(s, op).balance ==
      if op.Deposit? && s.kind == Gold then s.balance + op.amount * 11.0 / 10.0
      else if op.Deposit? then s.balance + op.amount
      else if s.kind == Overdrawn then s.balance
      else s.balance - op.amount
  {
  }

  // ---- The invariant ----

  /** One admissible step keeps the invariant. */
  lemma StepKeepsConsistent(s: Snapshot, op: Operation)
    requires Consistent(s) && Admissible(op)
    ensures Consistent(Step(s, op))
  {
  }

  lemma {:induction false} RunKeepsConsistent(s: Snapshot, ops: seq<Operation>)
    requires Consistent(s) && AllAdmissible(ops)
    ensures Consistent(Run(s, ops))
    decreases |ops|
  {
    if ops != [] {
      StepKeepsConsistent(s, ops[0]);
      assert AllAdmissible(ops[1..]) by {
        forall i | 0 <= i < |ops[1..]| ensures Admissible(ops[1..][i]) {
          assert ops[1..][i] == ops[i + 1];
        }
      }
      RunKeepsConsistent(Step(s, ops[0]), ops[1..]);
    }
  }

  /** Every account reachable from a new one by admissible operations keeps
      the invariant: Overdrawn exactly below zero, Gold at or above the threshold,
      Regular at or above zero. */
  lemma {:induction false} ReachableConsistent(ops: seq<Operation>)
    requires AllAdmissible(ops)
    ensures Consistent(Run(Initial(), ops))
    ensures Run(Initial(), ops).kind == Overdrawn <==> Run(Initial(), ops).balance < 0.0
  {
    RunKeepsConsistent(Initial(), ops);
  }

  /** Running two sequences one after the other is running their concatenation. */
  lemma {:induction false} RunAppend(s: Snapshot, xs: seq<Operation>, ys: seq<Operation>)
    ensures Run(s, xs + ys) == Run(Run(s, xs), ys)
    decreases |xs|
  {
    if xs == [] {
      assert xs + ys == ys;
    } else {
      assert (xs + ys)[0] == xs[0];
      assert (xs + ys)[1..] == xs[1..] + ys;
      RunAppend(Step(s, xs[0]), xs[1..], ys);
    }
  }

  /** The banding is kept by every step with a non-negative amount except a
      deposit that lifts an Overdrawn balance to the Gold threshold or above. */
  lemma StepKeepsBanded(s: Snapshot, op: Operation)
    requires Banded(s) && op.amount >= 0.0
    requires !(s.kind == Overdrawn && op.Deposit? && s.balance + op.amount >= GoldThreshold)
    ensures Banded(Step(s, op))
  {
  }

  /** ... and that one deposit does break it: an Overdrawn account that
      receives enough becomes Regular at or above the Gold threshold. */
  lemma OverdrawnDepositSkipsGold(balance: real, amount: real)
    requires balance < 0.0 && balance + amount >= GoldThreshold
    ensures Banded(Snapshot(Overdrawn, balance))
    ensures Step(Snapshot(Overdrawn, balance), Deposit(amount)) == Snapshot(Regular, balance + amount)
    ensures !Banded(Step(Snapshot(Overdrawn, balance), Deposit(amount)))
  {
  }

  /** Such an account is reachable from a new one. */
  lemma RegularAboveThresholdReachable()
    ensures Run(Initial(), [Withdraw(300.0), Deposit(2000.0)]) == Snapshot(Regular, 1900.0)
    ensures !Banded(Run(Initial(), [Withdraw(300.0), Deposit(2000.0)]))
  {
  }
}
