/**
  The scenarios of the repository's unit tests, as clients of the account:
  each follows from the contracts of Bank.BankAccount alone.
*/
module AccountScenarios {
  import opened Bank

  method DepositPositiveAmount()
  {
    var account := new BankAccount("12345", 1000.0);
    account.Deposit(500.0);
    var b := account.GetBalance();
    assert b == 1500.0;
  }

  method DepositNegativeAmount()
  {
    var account := new BankAccount("12345", 1000.0);
    account.Deposit(-500.0);
    var b := account.GetBalance();
    assert b == 1000.0;
  }

  method WithdrawLessThanBalance()
  {
    var account := new BankAccount("12345", 1000.0);
    var ok := account.Withdraw(200.0);
    var b := account.GetBalance();
    assert ok && b == 800.0;
  }

  method WithdrawMoreThanBalance()
  {
    var account := new BankAccount("12345", 1000.0);
    var ok := account.Withdraw(1200.0);
    var b := account.GetBalance();
    assert !ok && b == 1000.0;
  }

  method WithdrawNegativeAmount()
  {
    var account := new BankAccount("12345", 1000.0);
    var ok := account.Withdraw(-500.0);
    var b := account.GetBalance();
    assert !ok && b == 1000.0;
  }

  method TransferToAnotherAccount()
  {
    var account := new BankAccount("12345", 1000.0);
    var target := new BankAccount("67890", 500.0);
    var r := account.Transfer(target, 200.0);
    var b := account.GetBalance();
    var t := target.GetBalance();
    assert r == Returned(true) && b == 800.0 && t == 700.0;
  }

  method TransferMoreThanBalance()
  {
    var account := new BankAccount("12345", 1000.0);
    var target := new BankAccount("67890", 500.0);
    var r := account.Transfer(target, 1200.0);
    var b := account.GetBalance();
    var t := target.GetBalance();
    assert r == Returned(false) && b == 1000.0 && t == 500.0;
  }

  method TransferNegativeAmount()
  {
    var account := new BankAccount("12345", 1000.0);
    var target := new BankAccount("67890", 500.0);
    var r := account.Transfer(target, -100.0);
    var b := account.GetBalance();
    var t := target.GetBalance();
    assert r == Returned(false) && b == 1000.0 && t == 500.0;
  }

  method TransferToSelf()
  {
    var account := new BankAccount("12345", 1000.0);
    var r := account.Transfer(account, 200.0);
    var b := account.GetBalance();
    assert r == Returned(false) && b == 1000.0;
  }

  method InterestOnPositiveBalance()
  {
    var account := new BankAccount("12345", 1000.0);
    account.CalculateInterest(5.0);
    var b := account.GetBalance();
    assert b == 1050.0;
  }

  method InterestOnZeroBalance()
  {
    var account := new BankAccount("11111", 0.0);
    account.CalculateInterest(5.0);
    var b := account.GetBalance();
    assert b == 0.0;
  }
}
