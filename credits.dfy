/**
 * The credit balance (`CreditContext`): it starts at 10; `addCredits` adds,
 * `setCredits` overwrites, and `useCredit` spends only what the balance covers.
 */
module Credits {

  const INITIAL_CREDITS: int := 10

  /** What `useCredit(amount)` answers, and the balance after it. */
  datatype Spent = Spent(ok: bool, balance: int)

  /** `useCredit`: with enough credits, pay and answer true; otherwise answer false and keep the balance. */
  function Spend(balance: int, amount: int): (r: Spent)
    ensures r.ok <==> balance >= amount
    ensures r.ok ==> r.balance == balance - amount
    ensures !r.ok ==> r.balance == balance
  {
    if balance >= amount then Spent(true, balance - amount) else Spent(false, balance)
  }

  /** Spending never takes a non-negative balance below 0. */
  lemma SpendKeepsNonNegative(balance: int, amount: int)
    requires balance >= 0
    ensures Spend(balance, amount).balance >= 0
  {
  }

  /** `CreditProvider`'s state. */
  class CreditStore {
    var credits: int

    constructor()
      ensures credits == INITIAL_CREDITS
    {
      credits := INITIAL_CREDITS;
    }

    /** `addCredits`. */
    method AddCredits(amount: int)
      modifies this
      ensures credits == old(credits) + amount
    {
      credits := credits + amount;
    }

    /** `setCredits`: the balance becomes the amount, whatever it was. */
    method SetCredits(amount: int)
      modifies this
      ensures credits == amount
    {
      credits := amount;
    }

    /** `useCredit`. */
    method UseCredit(amount: int) returns (ok: bool)
      modifies this
      ensures Spent(ok, credits) == Spend(old(credits), amount)
    {
      if credits >= amount {
        credits := credits - amount;
        ok := true;
      } else {
        ok := false;
      }
    }
  }
}
