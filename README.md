# Bank-account State pattern and Visitor discount calculator, in Dafny

This project models two of the repository's design-pattern examples and proves properties of them.

**The bank account (State pattern).** A `BankAccount` hands every deposit and withdrawal to its current state object. That object is a `RegularState`, a `GoldState` or an `OverdrawnState`. The state object holds the balance and updates it. When a threshold is crossed, it installs in the account a new state object built from the balance it has just computed.

- `AccountRules` (account_rules.dfy) gives the transition table as a pure function `Step` on a `Snapshot` (state class and balance), with `Run` for a sequence of operations. It holds the lemmas about those rules and about the balance invariant.
- `BankAccounts` (bank_account.dfy) holds the two classes:
  - `AccountState` is the state object. Its class is a `const kind`, since a C# object never changes its class. Its `balance` is mutable.
  - `BankAccount` holds the mutable `state` field.
  - Both classes' methods are proved to follow `Step`. When a transition happens, the new state object is fresh, has a different class, and starts with exactly the balance the old object ended with.
  - The C# state object keeps a back-reference to its account. Here the state's methods receive the account as a parameter instead.
- `BankAccountTests` (bank_account_tests.dfy) replays the scenarios of the project's unit tests on the classes.

**The discount calculator (Visitor pattern).** `DiscountVisitors` (discount_visitor.dfy) models `Customer`, `Employee`, `DiscountVisitor` and `Container`.

- `Name`, `AmountOrdered` and `YearsEmployed` are set only by the constructors, so they are `const` fields. Visiting cannot change them.
- A customer's discount is a tenth of what it ordered. An employee's discount is 100 under ten years of employment and 200 from ten years on.
- Each visit overwrites the element's discount and adds that discount to the visitor's total.
- `Container.Accept` is two loops, employees first and then customers. After it, the total has grown by the sum of all their discounts.

Money (C# `decimal`) is modelled as `real`. Division by 10 is exact in base 10, and it is exact here too. The console notifications of the state objects are returned as a `Notice` value rather than printed.

**On the invariant.** For every reachable account whose deposits are non-negative, this is proved:

- Overdrawn means the balance is below 0.
- Gold means the balance is at least 1000.
- Regular means the balance is at least 0.

Regular is NOT bounded above by 1000. A deposit made while Overdrawn that lifts the balance to 1000 or more moves the account to Regular, not to Gold (src/State/RegularState.cs:82-91). For example, a new account withdraws 300 and then deposits 2000, and ends Regular with 1900. So an account's state class is not a function of its current balance alone.

The unit test at test/StateTests/BankAccountTests.cs:29-35 is named as if the state changed. It expects Gold, and 200 + 1500 − 600 = 1100 is Gold. The test at 57-64 says its withdrawal goes "into" Overdrawn, but the balance reaches exactly 0, which is Regular.

## Model

| member | source | states |
|---|---|---|
| AccountRules.GoldBonus | src/State/RegularState.cs:11-16 | the Gold bonus is one tenth of the deposited amount |
| AccountRules.RegularDepositRule | src/State/RegularState.cs:47-56 | a Regular deposit adds exactly the amount; the result is Gold iff the new balance is at least 1000, Regular iff it is below |
| AccountRules.RegularWithdrawRule | src/State/RegularState.cs:58-68 | a Regular withdrawal subtracts exactly the amount with no balance check; Overdrawn iff the new balance is below 0, so a balance of exactly 0 stays Regular |
| AccountRules.GoldDepositRule | src/State/RegularState.cs:11-16 | a Gold deposit adds the amount plus a tenth of it and never leaves Gold |
| AccountRules.GoldWithdrawRule | src/State/RegularState.cs:18-33 | a Gold withdrawal subtracts the amount; Regular iff the result is in [0, 1000), Overdrawn directly iff it is below 0, Gold iff it is at least 1000 |
| AccountRules.OverdrawnDepositRule | src/State/RegularState.cs:82-91 | an Overdrawn deposit adds the amount; Regular iff the new balance is at least 0, otherwise still Overdrawn |
| AccountRules.OverdrawnWithdrawRefused | src/State/RegularState.cs:93-97 | a withdrawal while Overdrawn changes neither balance nor state; the refusal notice is issued exactly in that case and reports the unchanged balance |
| AccountRules.StepChangesBalanceByAmount | src/State/RegularState.cs:11-97 | across all states, the balance moves by +amount (Gold: +1.1·amount) on deposit, by −amount on withdrawal, and not at all on a refused withdrawal |
| AccountRules.StepKeepsConsistent | src/State/RegularState.cs:11-97 | one operation with a non-negative deposit keeps Overdrawn < 0, Gold ≥ 1000, Regular ≥ 0 |
| AccountRules.RunKeepsConsistent | src/State/RegularState.cs:11-97 | any sequence of such operations keeps that invariant |
| AccountRules.ReachableConsistent | src/State/BankAccountState.cs:18-21 | every account reached from a new one (Regular, 200) keeps the invariant, and is Overdrawn exactly when its balance is negative |
| AccountRules.RunAppend | src/State/BankAccountState.cs:26-39 | operations apply in order: running xs then ys is running xs + ys |
| AccountRules.StepKeepsBanded | src/State/RegularState.cs:11-97 | with non-negative amounts, "Regular below 1000" is kept by every operation except an Overdrawn deposit reaching 1000 |
| AccountRules.OverdrawnDepositSkipsGold | src/State/RegularState.cs:82-91 | an Overdrawn deposit that reaches 1000 or more gives Regular, not Gold, breaking "Regular below 1000" |
| AccountRules.RegularAboveThresholdReachable | src/State/RegularState.cs:82-91 | a new account that withdraws 300 and deposits 2000 is Regular with 1900 |
| BankAccounts.AccountState.constructor | src/State/RegularState.cs:41-45 | a state object is built with the given class and balance |
| BankAccounts.AccountState.Deposit | src/State/RegularState.cs:11-91 | the current state performs a deposit as `Step` prescribes; at most one new state object is installed, fresh, of a different class, carrying the post-deposit balance |
| BankAccounts.AccountState.Withdraw | src/State/RegularState.cs:18-97 | the current state performs a withdrawal as `Step` prescribes; at most one new state object is installed, fresh, of a different class, carrying the post-withdrawal balance |
| BankAccounts.BankAccount.constructor | src/State/BankAccountState.cs:18-21 | a new account has a fresh Regular state holding 200, and its balance is that state's balance |
| BankAccounts.BankAccount.Deposit | src/State/BankAccountState.cs:26-30 | a deposit only dispatches to the current state; the account ends as `Step` prescribes and any replacement state carries over the balance unchanged |
| BankAccounts.BankAccount.Withdraw | src/State/BankAccountState.cs:35-39 | a withdrawal only dispatches to the current state; the account ends as `Step` prescribes and any replacement state carries over the balance unchanged |
| BankAccountTests.InitialStateIsRegular | test/StateTests/BankAccountTests.cs:5-9 | a new account is Regular with 200 |
| BankAccountTests.DepositEnoughForGold | test/StateTests/BankAccountTests.cs:12-17 | depositing 1000 on a new account gives Gold with 1200 |
| BankAccountTests.WithdrawFromGoldKeepsGold | test/StateTests/BankAccountTests.cs:20-26 | deposit 1500, withdraw 400 gives Gold with 1300 |
| BankAccountTests.WithdrawSixHundredFromGoldStaysGold | test/StateTests/BankAccountTests.cs:29-35 | deposit 1500, withdraw 600 gives Gold with 1100 |
| BankAccountTests.WithdrawMoreThanBalanceOverdraws | test/StateTests/BankAccountTests.cs:38-44 | deposit 200, withdraw 600 gives Overdrawn with −200 |
| BankAccountTests.DepositShortOfDebtKeepsOverdrawn | test/StateTests/BankAccountTests.cs:47-54 | deposit 100, withdraw 500, deposit 100 gives Overdrawn with −100, and a further withdrawal is refused |
| BankAccountTests.DepositCoveringDebtEndsRegular | test/StateTests/BankAccountTests.cs:57-64 | deposit 100, withdraw 300 stops at exactly 0 in Regular; deposit 200 ends Regular with 200 |
| DiscountVisitors.CustomerDiscount | src/Vistor/Customer.cs:96-101 | a customer's discount is a tenth of the amount ordered |
| DiscountVisitors.EmployeeDiscount | src/Vistor/Customer.cs:106-111 | an employee's discount is 100 or 200, and 200 exactly from ten years of employment on |
| DiscountVisitors.CustomerDiscountTotalIsTenth | src/Vistor/Customer.cs:96-103 | the customers' discounts together are a tenth of everything they ordered |
| DiscountVisitors.EmployeeDiscountTotalBounds | src/Vistor/Customer.cs:106-113 | n employees together receive between 100·n and 200·n |
| DiscountVisitors.Customer.constructor | src/Vistor/Customer.cs:12-16 | a customer is built with the given name and amount ordered and no discount yet |
| DiscountVisitors.Employee.constructor | src/Vistor/Customer.cs:36-40 | an employee is built with the given name and years employed and no discount yet |
| DiscountVisitors.Customer.Accept | src/Vistor/Customer.cs:18-23 | accepting a visitor gives the customer its discount and adds it to the visitor's total |
| DiscountVisitors.Employee.Accept | src/Vistor/Customer.cs:42-47 | accepting a visitor gives the employee its discount and adds it to the visitor's total |
| DiscountVisitors.DiscountVisitor.constructor | src/Vistor/Customer.cs:82 | a new visitor has given no discount |
| DiscountVisitors.DiscountVisitor.Visit | src/Vistor/Customer.cs:84-94 | a customer or employee is dispatched to its own rule; any other element leaves the total unchanged and changes no object |
| DiscountVisitors.DiscountVisitor.VisitCustomer | src/Vistor/Customer.cs:96-104 | the customer's discount is overwritten with a tenth of its order, and the total grows by exactly that discount |
| DiscountVisitors.DiscountVisitor.VisitEmployee | src/Vistor/Customer.cs:106-114 | the employee's discount is overwritten with 100 or 200, and the total grows by exactly that discount |
| DiscountVisitors.Container.constructor | src/Vistor/Customer.cs:122-123 | a new container has no employees and no customers |
| DiscountVisitors.Container.Accept | src/Vistor/Customer.cs:125-135 | every employee and every customer gets its discount, and the total grows by the sum of all their discounts |
| DiscountVisitors.SampleTotalDiscount | src/Vistor/Customer.cs:140-158 | the sample container (Sophie 500, Karen 1000, Sven 800; Kevin 18 years, Tom 5) yields a total discount of 530 |
| DiscountVisitors.RevisitCustomer | src/Vistor/Customer.cs:96-104 | visiting a customer twice leaves the same discount on it but adds it to the total twice |

## Left out

- Console output: the state objects' lines are returned as a `Notice`. The "Visited …" lines of `Customer.Accept` and `Employee.Accept`, which print the element's discount, are not modelled, because they only print values the model already exposes.
- C# `decimal` precision and overflow: amounts are unbounded `real`s, so rounding of `amount / 10` at 28 significant digits is not modelled.
- Non-positive amounts: the source accepts any amount, and so do `Step` and the classes. The invariant lemmas require non-negative deposits (`Admissible`). `StepKeepsBanded` requires every amount to be non-negative, since a negative withdrawal can lift a Regular balance past 1000.
- AccountRules.ReachableConsistent: does not include "Regular ⇒ balance < 1000". The source does not keep that bound, as `OverdrawnDepositSkipsGold` and `RegularAboveThresholdReachable` show.
- The order of visits in `Container.Accept` (employees before customers) is kept in the loops. It is not stated in a contract, since only the console lines would reveal it.
- `IVisitor` has only one implementation, `DiscountVisitor`, so `Accept` takes a `DiscountVisitor`. Elements other than customers and employees are represented by `OtherElement`.
- The Singleton logger, the Template Method mail parser, the Strategy export services, the Chain of Responsibility document tests and the exception demo are not part of this model. They involve lazy thread-safe initialisation, console output, code that is not available, or the wall clock.
