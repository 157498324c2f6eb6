/**
  The account object: an account number fixed at construction and a
  balance that the four operations update in place.
*/
module Bank {
  import opened AccountSpec

  /**
    How a transfer ends: it returns a flag, or, when the target is null and
    the withdrawal went through, the deposit to the target throws a
    NullPointerException after the source has already been debited.
  */
  datatype TransferOutcome = Returned(value: bool) | ThrewNullPointer

  class BankAccount {
    const accountNumber: string
    var balance: real

    /** A new account; the initial balance is not validated and may be negative. */
    constructor (accountNumber: string, initialBalance: real)
      ensures this.accountNumber == accountNumber
      ensures balance == initialBalance
    {
      this.accountNumber := accountNumber;
      balance := initialBalance;
    }

    /** Credits a positive amount; any other amount is refused and changes nothing. */
    method Deposit(amount: real)
      modifies this`balance
      ensures balance == Deposited(old(balance), amount)
    {
      if amount > 0.0 {
        balance := balance + amount;
      }
    }

    /**
      Debits a positive amount that the balance covers and reports whether
      it did.
    */
    method Withdraw(amount: real) returns (ok: bool)
      modifies this`balance
      ensures Withdrawal(ok, balance) == Withdrawn(old(balance), amount)
    {
      if amount > 0.0 && balance >= amount {
        balance := balance - amount;
        ok := true;
      } else {
        ok := false;
      }
    }

    /**
      Moves an amount to another account.  A transfer to this very object
      (reference identity) is refused before anything is withdrawn; otherwise
      the outcome is that of the withdrawal from this account, and the
      target is credited when the withdrawal succeeded.
    */
    method Transfer(target: BankAccount?, amount: real) returns (r: TransferOutcome)
      modifies this`balance, target
      ensures target == this ==> r == Returned(false) && balance == old(balance)
      ensures target == null ==>
                balance == Withdrawn(old(balance), amount).balance &&
                r == (if CanWithdraw(old(balance), amount) then ThrewNullPointer else Returned(false))
      ensures target != null && target != this ==>
                var t := Transferred(old(balance), old(target.balance), amount);
                r == Returned(t.ok) && balance == t.source && target.balance == t.target
    {
      if this == target {
        return Returned(false);
      }
      var ok := Withdraw(amount);
      if ok {
        if target == null {
          return ThrewNullPointer;
        }
        target.Deposit(amount);
        r := Returned(true);
      } else {
        r := Returned(false);
      }
    }

    /** Adds one accrual of interest at a percentage rate, to a positive balance only. */
    method CalculateInterest(annualRate: real)
      modifies this`balance
      ensures balance == WithInterest(old(balance), annualRate)
    {
      if balance > 0.0 {
        var interest := balance * (annualRate / 100.0);
        balance := balance + interest;
      }
    }

    /** The account number given at construction. */
    method GetAccountNumber() returns (n: string)
      ensures n == accountNumber
    {
      n := accountNumber;
    }

    /** The current balance. */
    method GetBalance() returns (b: real)
      ensures b == balance
    {
      b := balance;
    }
  }
}
