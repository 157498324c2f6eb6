# Bank account model

This project models the `BankAccount` class of a small Java repository. An
account holds an account number that is fixed when it is created and a balance
that four guarded operations update in place:

- a deposit credits only a positive amount;
- a withdrawal debits only a positive amount that the balance covers, and
  reports whether it did;
- a transfer refuses a target that is the very same object, then withdraws
  from the source and, if that worked, deposits the amount to the target;
- an interest accrual adds `balance * rate / 100` to a positive balance only.

Layout:

- `account_spec.dfy`, module `AccountSpec`: the balance rules as pure functions
  (`Deposited`, `Withdrawn`, `WithInterest`, `Transferred`) whose contracts state
  what each rule means. It also holds lemmas relating the rules to each other:
  the inverses and the transfer round trip.
- `bank_account.dfy`, module `Bank`: the class `BankAccount` with `const
  accountNumber` and `var balance`. Every mutating method has the frame
  ``modifies this`balance`` (for `Transfer`, plus the target) and is proved to
  leave exactly the balance its rule function gives for the old balance. With
  that frame and the `const`, no operation can change the account number.
- `account_history.dfy`, module `AccountHistory`: histories of calls replayed
  on the rules. Its lemmas, proved by induction, say what holds after any
  number of calls: non-negativity, the sum of deposits, and conservation of
  the total under transfers.
- `account_scenarios.dfy`, module `AccountScenarios`: the unit-test scenarios
  (`src/test/java/BankAccountTest.java`) written as client methods. Each one's
  expected balances follow from the class contracts alone.

Modelling decisions:

- Java `double` is modelled as `real`, so the balance arithmetic is exact.
- Console messages on refused operations are not modelled. A refusal is
  modelled as an unchanged balance, plus `false` where the source returns a
  flag.
- `transfer` takes a nullable target, as the Java method does. A null target
  is not the same object as the source, so the withdrawal runs. If the
  withdrawal succeeds, the call on the null target throws a
  NullPointerException after the source has been debited. `Transfer` returns
  `ThrewNullPointer` in that case and leaves the source debited.
- One might expect the balance never to go negative. The code enforces this
  only partly. The constructor accepts any initial balance
  (`src/main/java/BankAccount.java:5-8`), and `calculateInterest` does not
  check the rate (lines 43-45), so a rate below -100 percent makes a
  positive balance negative. The model follows the code: see
  `InterestCanOverdraw` and `InterestOverdrawsBelowMinus100`.
  `ReplayKeepsNonNegative` proves that the balance stays non-negative for
  rates of at least -100 percent.

## Model

| member | source | states |
|---|---|---|
| `AccountSpec.Deposited` | src/main/java/BankAccount.java:10-16 | a deposit never lowers the balance; it raises it exactly when the amount is positive, and then by exactly the amount |
| `AccountSpec.Withdrawn` | src/main/java/BankAccount.java:18-26 | the withdrawal succeeds exactly when the amount is positive and covered; on success the balance drops by the amount and stays non-negative; on failure it is unchanged |
| `AccountSpec.WithInterest` | src/main/java/BankAccount.java:42-49 | a non-positive balance is unchanged; a positive one becomes `balance * (1 + rate/100)`, grows for a positive rate, does not shrink for a zero rate and stays non-negative for rates of at least -100 |
| `AccountSpec.Transferred` | src/main/java/BankAccount.java:34-39 | between distinct accounts a transfer succeeds exactly when the source-side withdrawal guard holds; on success the source drops and the target rises by the amount; on failure neither changes; the total is always kept |
| `AccountSpec.WithdrawUndoesDeposit` | src/main/java/BankAccount.java:10-26 | withdrawing a positive amount just deposited to a non-negative balance succeeds and restores the balance |
| `AccountSpec.DepositUndoesWithdraw` | src/main/java/BankAccount.java:10-26 | depositing an amount just withdrawn restores the balance |
| `AccountSpec.TransferBack` | src/main/java/BankAccount.java:28-40 | after a successful transfer to a non-negative target, the reverse transfer succeeds and restores both balances |
| `AccountSpec.WithdrawFailuresAlike` | src/main/java/BankAccount.java:18-26 | a non-positive amount and an uncovered amount give the same failed result with the balance unchanged |
| `AccountSpec.InterestCanOverdraw` | src/main/java/BankAccount.java:42-46 | with an unchecked rate of -200 percent, interest turns a balance of 100 into -100 |
| `AccountSpec.InterestOverdrawsBelowMinus100` | src/main/java/BankAccount.java:42-46 | every positive balance turns negative under any rate below -100 percent, so the -100 bound for non-negativity is tight |
| `Bank.BankAccount.constructor` | src/main/java/BankAccount.java:5-8 | the account gets the given number and, without validation, the given initial balance |
| `Bank.BankAccount.Deposit` | src/main/java/BankAccount.java:10-16 | the new balance is `Deposited` of the old one; nothing else changes |
| `Bank.BankAccount.Withdraw` | src/main/java/BankAccount.java:18-26 | the returned flag and the new balance are those of `Withdrawn` on the old balance; nothing else changes |
| `Bank.BankAccount.Transfer` | src/main/java/BankAccount.java:28-40 | to the same object: returns false, balance unchanged; to a null target: the withdrawal happens and the call fails with a NullPointerException precisely when it succeeded; to another account: the flag and both new balances are those of `Transferred` on the old balances |
| `Bank.BankAccount.CalculateInterest` | src/main/java/BankAccount.java:42-49 | the new balance is `WithInterest` of the old balance and the rate; nothing else changes |
| `Bank.BankAccount.GetAccountNumber` | src/main/java/BankAccount.java:52-54 | returns the account number, which no operation changes |
| `Bank.BankAccount.GetBalance` | src/main/java/BankAccount.java:56-58 | returns the current balance without changing anything |
| `AccountHistory.ReplayKeepsNonNegative` | src/main/java/BankAccount.java:10-49 | a non-negative balance stays non-negative through any sequence of deposits, withdrawals and interest accruals at rates of at least -100 percent |
| `AccountHistory.DepositsAccumulate` | src/main/java/BankAccount.java:10-16 | a sequence of deposits raises the balance by exactly the sum of its positive amounts |
| `AccountHistory.ReplayMovesConservesTotal` | src/main/java/BankAccount.java:28-40 | any sequence of transfers, in either direction between two accounts, keeps the sum of their balances |
| `AccountHistory.ReplayMovesKeepsNonNegative` | src/main/java/BankAccount.java:28-40 | any sequence of transfers between two non-negative accounts leaves both non-negative |

## Left out

- Console output: the advisory messages printed on refused operations are I/O and are not modelled.
- Floating point: balances, amounts and rates are exact reals, so IEEE-754 `double` rounding is not captured, and neither are NaN and the infinities. In the source `deposit` accepts positive infinity, and after `calculateInterest` with a NaN rate on a positive balance the balance is NaN; from then on withdrawals and interest are refused (lines 19 and 43), and deposits pass the guard at line 11 but leave the balance NaN.
- Account number: Dafny's `string` cannot be null, so the model's account number is never null; the Java constructor stores a null `accountNumber` unchecked (lines 5-7).
- Visibility: Java's `private` fields are not modelled; a Dafny client can assign `balance` directly. The history lemmas cover sequences of the four operations only.
- Concurrency: the class has no synchronisation, and the model is sequential.
- The commented-out balance setter at the end of the class is not live code.
- The JUnit harness is not modelled. Its scenarios appear only as client methods in `AccountScenarios`.
