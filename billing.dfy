/**
 * The billing settings: the credit total of each plan and how much of it the
 * balance represents.
 */
module Billing {
  import opened Types
  import PlanSelection

  /** The credit total the billing table lists for a plan. */
  function TotalCredits(plan: PlanName): (n: int)
    ensures n > 0
  {
    match plan
    case Free => 10
    case Basic => 50
    case Standard => 150
    case Premium => 400
  }

  /** `usagePercentage`: the balance as a percentage of the plan's total, 0 when the total is 0. */
  function UsagePercentage(credits: int, plan: PlanName): real
  {
    var total := TotalCredits(plan);
    if total > 0 then (credits as real / total as real) * 100.0 else 0.0
  }

  /** The percentage is not clamped: a balance above the plan's total shows more than 100. */
  lemma UsageNotClamped(credits: int, plan: PlanName)
    ensures credits > TotalCredits(plan) ==> UsagePercentage(credits, plan) > 100.0
    ensures credits == TotalCredits(plan) ==> UsagePercentage(credits, plan) == 100.0
    ensures 0 <= credits < TotalCredits(plan) ==> 0.0 <= UsagePercentage(credits, plan) < 100.0
  {
    var t := TotalCredits(plan) as real;
    var q := credits as real / t;
    assert q * t == credits as real;
  }

  /** Every offered plan's credit amount is its billing total, so right after selecting it the usage reads 100%. */
  lemma FullAfterSelection(i: nat)
    requires i < |PlanSelection.Plans()|
    ensures PlanSelection.Plans()[i].creditAmount == TotalCredits(PlanSelection.Plans()[i].key)
    ensures UsagePercentage(PlanSelection.Plans()[i].creditAmount, PlanSelection.Plans()[i].key) == 100.0
  {
    UsageNotClamped(PlanSelection.Plans()[i].creditAmount, PlanSelection.Plans()[i].key);
  }

  /** The initial balance of 10 on the Free plan also reads 100%. */
  lemma FullAtStart()
    ensures UsagePercentage(10, Free) == 100.0
  {
    UsageNotClamped(10, Free);
  }
}
