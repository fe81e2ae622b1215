/** The player's money (`WalletManager`): a balance with an unconditional
    credit and a debit that is refused when funds are short, plus the
    progress towards the savings goal shown beside it. */
module Wallet {
  import opened Numeric

  const DefaultBalance: real := 1000.0
  /** The goal: a profit of 5,000 on top of a starting balance of 5,000. */
  const GoalInitial: real := 5000.0
  const GoalProfit: real := 5000.0

  /** What `subtract` reports, with the balance it leaves. */
  datatype Debit = Debit(ok: bool, balance: real)

  /** `subtract(amount)`: refused, changing nothing, when `amount` exceeds
      the balance; otherwise takes exactly `amount`. An accepted debit never
      leaves the balance negative. */
  function Debited(balance: real, amount: real): (r: Debit)
    ensures r.ok <==> amount <= balance
    ensures !r.ok ==> r.balance == balance
    ensures r.ok ==> r.balance == balance - amount && 0.0 <= r.balance
  {
    if balance >= amount then Debit(true, balance - amount) else Debit(false, balance)
  }

  /** Progress towards the goal in percent, clamped to 0..100. */
  function GoalPercent(balance: real): (p: real)
    ensures 0.0 <= p <= 100.0
    ensures balance <= GoalInitial ==> p == 0.0
    ensures balance >= GoalInitial + GoalProfit ==> p == 100.0
    ensures GoalInitial <= balance <= GoalInitial + GoalProfit ==>
              p * GoalProfit == (balance - GoalInitial) * 100.0
  {
    var profit := Max(0.0, balance - GoalInitial);
    Min(100.0, (profit / GoalProfit) * 100.0)
  }

  /** More money never shows less progress. */
  lemma GoalPercentMonotone(b1: real, b2: real)
    requires b1 <= b2
    ensures GoalPercent(b1) <= GoalPercent(b2)
  {
  }

  /** A debit, accepted or refused, never takes a nonnegative balance below
      zero; credits of nonnegative amounts plainly cannot either. */
  lemma DebitKeepsNonnegative(balance: real, amount: real)
    requires 0.0 <= balance
    ensures 0.0 <= Debited(balance, amount).balance
  {
  }

  /** The worked example: with 100, a debit of 150 is refused and leaves 100,
      then a debit of 40 is accepted and leaves 60. */
  lemma DebitScenario()
    ensures Debited(100.0, 150.0) == Debit(false, 100.0)
    ensures Debited(Debited(100.0, 150.0).balance, 40.0) == Debit(true, 60.0)
  {
  }

  class WalletManager {
    var balance: real

    constructor (initialBalance: real := DefaultBalance)
      ensures balance == initialBalance
    {
      balance := initialBalance;
    }

    method Add(amount: real)
      modifies this
      ensures balance == old(balance) + amount
    {
      balance := balance + amount;
    }

    method Subtract(amount: real) returns (ok: bool)
      modifies this
      ensures Debit(ok, balance) == Debited(old(balance), amount)
    {
      if balance >= amount {
        balance := balance - amount;
        return true;
      }
      return false;
    }

    function GetGoalPercent(): (p: real)
      reads this
      ensures 0.0 <= p <= 100.0
    {
      GoalPercent(balance)
    }
  }
}
