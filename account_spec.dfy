/**
  The balance rules of a bank account, as pure functions on the balance.

  Every guarded operation of the account is described here as a function
  from the old balance (and the operation's argument) to the new balance;
  the class in module Bank is proved to update its field exactly as these
  functions say.  Amounts, balances and rates are real numbers: the
  floating-point rounding of the Java class is not modelled.
*/
module AccountSpec {

  /** The guard of a withdrawal: a positive amount that the balance covers. */
  predicate CanWithdraw(balance: real, amount: real)
  {
    amount > 0.0 && balance >= amount
  }

  /** The balance after a deposit: only a positive amount is credited. */
  function Deposited(balance: real, amount: real): (r: real)
    ensures r >= balance
    ensures r > balance <==> amount > 0.0
    ensures amount > 0.0 ==> r - amount == balance
  {
    if amount > 0.0 then balance + amount else balance
  }

  /** What a withdrawal reports, and the balance it leaves. */
  datatype Withdrawal = Withdrawal(ok: bool, balance: real)

  /** A withdrawal: debits the amount exactly when the guard holds. */
  function Withdrawn(balance: real, amount: real): (r: Withdrawal)
    ensures r.ok <==> CanWithdraw(balance, amount)
    ensures r.ok ==> r.balance + amount == balance && r.balance >= 0.0
    ensures r.ok ==> r.balance < balance
    ensures !r.ok ==> r.balance == balance
  {
    if CanWithdraw(balance, amount) then Withdrawal(true, balance - amount)
    else Withdrawal(false, balance)
  }

  /**
    One accrual of simple interest at a percentage rate: only a positive
    balance earns it.
  */
  function WithInterest(balance: real, rate: real): (r: real)
    ensures balance <= 0.0 ==> r == balance
    ensures balance > 0.0 ==> r == balance * (1.0 + rate / 100.0)
    ensures balance > 0.0 && rate >= 0.0 ==> r >= balance
    ensures balance > 0.0 && rate > 0.0 ==> r > balance
    ensures balance > 0.0 && rate >= -100.0 ==> r >= 0.0
  {
    if balance > 0.0 then
      var interest := balance * (rate / 100.0);
      balance + interest
    else
      balance
  }

  /** The two balances after a transfer between two distinct accounts. */
  datatype Transfer = Transfer(ok: bool, source: real, target: real)

  /**
    A transfer between two distinct accounts: a withdrawal from the source
    followed, when it succeeded, by a deposit to the target.
  */
  function Transferred(source: real, target: real, amount: real): (r: Transfer)
    ensures r.ok <==> CanWithdraw(source, amount)
    ensures r.source + r.target == source + target
    ensures r.ok ==> r.source == source - amount && r.target == target + amount
    ensures !r.ok ==> r.source == source && r.target == target
  {
    var w := Withdrawn(source, amount);
    if w.ok then Transfer(true, w.balance, Deposited(target, amount))
    else Transfer(false, source, target)
  }

  /** Withdrawing what was just deposited gives back the old balance. */
  lemma WithdrawUndoesDeposit(balance: real, amount: real)
    requires amount > 0.0
    requires balance >= 0.0
    ensures Withdrawn(Deposited(balance, amount), amount) == Withdrawal(true, balance)
  {
  }

  /** Depositing what was just withdrawn gives back the old balance. */
  lemma DepositUndoesWithdraw(balance: real, amount: real)
    requires Withdrawn(balance, amount).ok
    ensures Deposited(Withdrawn(balance, amount).balance, amount) == balance
  {
  }

  /**
    A successful transfer can be sent back: the reverse transfer succeeds
    and restores both balances.
  */
  lemma TransferBack(source: real, target: real, amount: real)
    requires target >= 0.0
    requires Transferred(source, target, amount).ok
    ensures var t := Transferred(source, target, amount);
            Transferred(t.target, t.source, amount) == Transfer(true, target, source)
  {
  }

  /**
    A failed withdrawal does not tell its two causes apart: a non-positive
    amount and an uncovered amount both yield the same result.
  */
  lemma WithdrawFailuresAlike(balance: real, amount: real)
    requires amount <= 0.0 || balance < amount
    ensures Withdrawn(balance, amount) == Withdrawal(false, balance)
  {
  }

  /**
    The rate is not checked: a rate below -100 percent makes a positive
    balance negative, so the balance stays non-negative only for rates of
    at least -100 percent.
  */
  lemma InterestCanOverdraw()
    ensures WithInterest(100.0, -200.0) == -100.0
  {
  }

  /**
    The bound -100 percent is tight: below it, every positive balance turns
    negative.
  */
  lemma InterestOverdrawsBelowMinus100(balance: real, rate: real)
    requires balance > 0.0 && rate < -100.0
    ensures WithInterest(balance, rate) < 0.0
  {
    var factor := 1.0 + rate / 100.0;
    assert balance * (-factor) > 0.0;
  }
}
