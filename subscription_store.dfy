/**
 * The subscription store: the plan of the signed-in user, the open flag of
 * the upgrade dialog and the current subscription id. Every setter replaces
 * one field and leaves the other two alone.
 */
module SubscriptionStore {
  import opened Wrappers

  /** The three plans; a store value can only ever be one of them. */
  datatype Plan = Free | Pro | Unlimited

  class Store {
    var subscriptionId: Option<string>
    var open: bool
    var plan: Plan

    /** The store starts on the free plan, with the dialog closed and no subscription. */
    constructor()
      ensures subscriptionId == None && !open && plan == Free
    {
      subscriptionId := None;
      open := false;
      plan := Free;
    }

    method SetSubscriptionId(id: Option<string>)
      modifies this
      ensures subscriptionId == id
      ensures open == old(open) && plan == old(plan)
    {
      subscriptionId := id;
    }

    method SetOpen(open': bool)
      modifies this
      ensures open == open'
      ensures subscriptionId == old(subscriptionId) && plan == old(plan)
    {
      open := open';
    }

    method SetPlan(plan': Plan)
      modifies this
      ensures plan == plan'
      ensures subscriptionId == old(subscriptionId) && open == old(open)
    {
      plan := plan';
    }
  }
}
