/** The subscribed plan (`PlanContext`): `Free` until a plan is selected. */
module PlanContext {
  import opened Types

  class PlanStore {
    var plan: PlanName

    constructor()
      ensures plan == Free
    {
      plan := Free;
    }

    /** `setPlan`. */
    method SetPlan(p: PlanName)
      modifies this
      ensures plan == p
    {
      plan := p;
    }
  }
}
