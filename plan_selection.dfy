/**
 * The plan-selection modal: the three paid plans on offer with their credit
 * amounts, and `handleSelectPlan`, which sets the plan and overwrites the
 * credit balance with the plan's amount.
 */
module PlanSelection {
  import opened Types
  import Credits
  import PlanContext

  /** One entry of the `plans` table. */
  datatype PlanOffer = PlanOffer(key: PlanName, popular: bool, creditAmount: int)

  /** The `plans` table, in display order. */
  function Plans(): (r: seq<PlanOffer>)
    ensures |r| == 3
  {
    [ PlanOffer(Basic, false, 50), PlanOffer(Standard, true, 150), PlanOffer(Premium, false, 400) ]
  }

  /**
   * Free cannot be selected, each paid plan is offered once, and Standard is
   * the one flagged as popular.
   */
  lemma PlansFacts()
    ensures forall i :: 0 <= i < |Plans()| ==> Plans()[i].key != Free
    ensures forall i, j :: 0 <= i < j < |Plans()| ==> Plans()[i].key != Plans()[j].key
    ensures forall i :: 0 <= i < |Plans()| ==> (Plans()[i].popular <==> Plans()[i].key == Standard)
    ensures forall i :: 0 <= i < |Plans()| ==> Plans()[i].creditAmount > 0
  {
  }

  /** The account the modal writes to: a plan and a balance. */
  datatype Account = Account(plan: PlanName, credits: int)

  /** `handleSelectPlan(planKey, creditAmount)` on the account. */
  function SelectPlan(a: Account, planKey: PlanName, creditAmount: int): (r: Account)
    ensures r.plan == planKey && r.credits == creditAmount
  {
    a.(plan := planKey, credits := creditAmount)
  }

  /** Selecting is an overwrite: the result does not depend on the account before, so selecting twice is selecting once. */
  lemma SelectIsOverwrite(a: Account, b: Account, planKey: PlanName, creditAmount: int)
    ensures SelectPlan(a, planKey, creditAmount) == SelectPlan(b, planKey, creditAmount)
    ensures SelectPlan(SelectPlan(a, planKey, creditAmount), planKey, creditAmount) == SelectPlan(a, planKey, creditAmount)
  {
  }

  /** `handleSelectPlan` on the two stores. */
  method HandleSelectPlan(plans: PlanContext.PlanStore, credits: Credits.CreditStore, planKey: PlanName, creditAmount: int)
    modifies plans, credits
    ensures Account(plans.plan, credits.credits) == SelectPlan(Account(old(plans.plan), old(credits.credits)), planKey, creditAmount)
  {
    plans.SetPlan(planKey);
    credits.SetCredits(creditAmount);
  }
}
