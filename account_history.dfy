/**
  Sequences of operations on accounts.  An account lives through any
  number of calls; these functions replay such a history on the balance
  rules of AccountSpec, and the lemmas state what holds after every
  history, however long.
*/
module AccountHistory {
  import opened AccountSpec

  /** One balance-changing call on a single account. */
  datatype Op = Deposit(amount: real) | Withdraw(amount: real) | AccrueInterest(rate: real)

  /** The balance after one call. */
  function Step(balance: real, op: Op): (r: real)
  {
    match op
    case Deposit(a) => Deposited(balance, a)
    case Withdraw(a) => Withdrawn(balance, a).balance
    case AccrueInterest(rate) => WithInterest(balance, rate)
  }

  /** The balance after the calls of a history, first to last. */
  function Replay(balance: real, ops: seq<Op>): (r: real)
    decreases |ops|
  {
    if ops == [] then balance else Replay(Step(balance, ops[0]), ops[1..])
  }

  /** No interest accrual in the history uses a rate below -100 percent. */
  predicate RatesAtLeastMinus100(ops: seq<Op>)
  {
    forall op :: op in ops && op.AccrueInterest? ==> op.rate >= -100.0
  }

  /**
    A non-negative balance stays non-negative through every history whose
    interest rates are at least -100 percent.
  */
  lemma {:induction false} ReplayKeepsNonNegative(balance: real, ops: seq<Op>)
    requires balance >= 0.0
    requires RatesAtLeastMinus100(ops)
    ensures Replay(balance, ops) >= 0.0
    decreases |ops|
  {
    if ops != [] {
      assert ops[0] in ops;
      assert RatesAtLeastMinus100(ops[1..]) by {
        forall op | op in ops[1..] ensures op in ops { }
      }
      ReplayKeepsNonNegative(Step(balance, ops[0]), ops[1..]);
    }
  }

  /** The sum of the positive amounts among a history's deposits. */
  function Credited(ops: seq<Op>): (r: real)
    decreases |ops|
  {
    if ops == [] then 0.0
    else (if ops[0].Deposit? && ops[0].amount > 0.0 then ops[0].amount else 0.0) + Credited(ops[1..])
  }

  /** A history made of deposits only. */
  predicate OnlyDeposits(ops: seq<Op>)
  {
    forall op :: op in ops ==> op.Deposit?
  }

  /**
    A history of deposits raises the balance by exactly the sum of its
    positive amounts; the refused ones contribute nothing.
  */
  lemma {:induction false} DepositsAccumulate(balance: real, ops: seq<Op>)
    requires OnlyDeposits(ops)
    ensures Replay(balance, ops) == balance + Credited(ops)
    decreases |ops|
  {
    if ops != [] {
      assert ops[0] in ops;
      assert OnlyDeposits(ops[1..]) by {
        forall op | op in ops[1..] ensures op in ops { }
      }
      DepositsAccumulate(Step(balance, ops[0]), ops[1..]);
    }
  }

  /** A transfer between two distinct accounts, in one direction or the other. */
  datatype Move = Forth(amount: real) | Back(amount: real)

  /** The two balances after one transfer. */
  function Move1(first: real, second: real, m: Move): (r: (real, real))
  {
    match m
    case Forth(a) =>
      var t := Transferred(first, second, a);
      (t.source, t.target)
    case Back(a) =>
      var t := Transferred(second, first, a);
      (t.target, t.source)
  }

  /** The two balances after a history of transfers between them. */
  function ReplayMoves(first: real, second: real, moves: seq<Move>): (r: (real, real))
    decreases |moves|
  {
    if moves == [] then (first, second)
    else
      var next := Move1(first, second, moves[0]);
      ReplayMoves(next.0, next.1, moves[1..])
  }

  /** Any history of transfers between two accounts keeps their total. */
  lemma {:induction false} ReplayMovesConservesTotal(first: real, second: real, moves: seq<Move>)
    ensures var end := ReplayMoves(first, second, moves);
            end.0 + end.1 == first + second
    decreases |moves|
  {
    if moves != [] {
      var next := Move1(first, second, moves[0]);
      ReplayMovesConservesTotal(next.0, next.1, moves[1..]);
    }
  }

  /**
    Any history of transfers between two accounts that start non-negative
    leaves both non-negative: a transfer never overdraws its source.
  */
  lemma {:induction false} ReplayMovesKeepsNonNegative(first: real, second: real, moves: seq<Move>)
    requires first >= 0.0 && second >= 0.0
    ensures var end := ReplayMoves(first, second, moves);
            end.0 >= 0.0 && end.1 >= 0.0
    decreases |moves|
  {
    if moves != [] {
      var next := Move1(first, second, moves[0]);
      ReplayMovesKeepsNonNegative(next.0, next.1, moves[1..]);
    }
  }
}
