/** The pricing page: the signed-in user's current subscription as the page
    resolves it, and the list of plans it offers. */
module Pricing {
  import opened Common
  import opened PriceIds
  import opened Subscription
  import opened GetPlans

  /** The `{ subscription, subscription_status }` object the page builds. */
  datatype CurrentSubscription = CurrentSubscription(subscription: string, subscriptionStatus: string)

  /** The page's plan name per tier, and `'Free'` for an unknown price id. */
  function PagePlanName(t: Option<Tier>): string {
    match t
    case Some(tier) => TierName(tier)
    case None => "Free"
  }

  /** The `let planName = 'Free'; switch (stripe_price_id) { ... }` step. */
  method PlanNameFor(priceId: string) returns (planName: string)
    ensures planName == PagePlanName(TierOf(priceId))
  {
    planName := "Free";
    if priceId == ExpertCurrent {
      planName := "Expert Freelancer";
    } else if priceId == SeasonedCurrent {
      planName := "Seasoned Freelancer";
    } else if priceId == NewCurrent {
      planName := "New Freelancer";
    } else if priceId == ExpertLegacy {
      planName := "Expert Freelancer";
    } else if priceId == SeasonedLegacy {
      planName := "Seasoned Freelancer";
    } else if priceId == NewLegacy {
      planName := "New Freelancer";
    }
  }

  /** What `currentSubscription` ends up as, for a signed-in user id (or none)
      and the fetched subscription row (or none). */
  function PageSubscription(user: Option<string>, fetched: Option<SubscriptionData>, now: int): Option<CurrentSubscription> {
    if user.Some? && fetched.Some? && HasAccess(fetched.value, now) then
      Some(CurrentSubscription(PagePlanName(TierOf(fetched.value.stripePriceId)), fetched.value.status))
    else None
  }

  /** The step sequence that sets `currentSubscription`. */
  method ResolveCurrentSubscription(user: Option<string>, fetched: Option<SubscriptionData>, now: int)
    returns (currentSubscription: Option<CurrentSubscription>)
    ensures currentSubscription == PageSubscription(user, fetched, now)
    ensures user.None? || fetched.None? ==> currentSubscription.None?
    ensures currentSubscription.Some? ==> currentSubscription.value.subscriptionStatus == fetched.value.status
  {
    currentSubscription := None;
    if user.Some? {
      if fetched.Some? {
        var d := fetched.value;
        if HasAccess(d, now) {
          var planName := PlanNameFor(d.stripePriceId);
          currentSubscription := Some(CurrentSubscription(planName, d.status));
        }
      }
    }
  }

  /** The page and `getSubscriptionAccess` agree: the page has a subscription
      exactly when the access rule passes, and then it names the same plan, `'Free'`
      included for an unknown price id. */
  lemma PageAgreesWithAccessHelper(user: string, fetched: Option<SubscriptionData>, now: int)
    ensures var page := PageSubscription(Some(user), fetched, now);
      var access := GetSubscriptionAccess(fetched, now);
      && (page.Some? <==> fetched.Some? && HasAccess(fetched.value, now))
      && (page.Some? ==> page.value.subscription == access.planName && page.value.subscriptionStatus == access.status)
  {
  }

  function NotShilajitTea(): Plan -> bool {
    (p: Plan) => p.name != "Shilajit Tea"
  }

  /** `plans.filter(item => item.name !== 'Shilajit Tea')`. */
  function OfferedPlans(plans: seq<Plan>): (r: seq<Plan>)
    ensures forall i :: 0 <= i < |r| ==> r[i].name != "Shilajit Tea" && r[i] in plans
    ensures forall i :: 0 <= i < |plans| && plans[i].name != "Shilajit Tea" ==> plans[i] in r
  {
    Filter(plans, NotShilajitTea())
  }

  /** The page's `plans.filter(...)` on what `functions.invoke` returned: a failed
      invoke leaves `plans` null, and calling `filter` on it throws a TypeError,
      so the page fails to render instead of listing no plans. */
  function PlansOnPage(invoked: Option<seq<Plan>>): (r: Result<seq<Plan>>)
    ensures r.Err? <==> invoked.None?
    ensures invoked.Some? ==> r == Ok(OfferedPlans(invoked.value))
  {
    if invoked.None? then Err("TypeError: Cannot read properties of null (reading 'filter')")
    else Ok(OfferedPlans(invoked.value))
  }

  /** The filter keeps the order of the plans it keeps, and drops nothing from
      a list without the excluded name. */
  lemma OfferedPlansKeepOrder(front: seq<Plan>, back: seq<Plan>)
    ensures OfferedPlans(front + back) == OfferedPlans(front) + OfferedPlans(back)
    ensures (forall i :: 0 <= i < |front| ==> front[i].name != "Shilajit Tea") ==> OfferedPlans(front) == front
  {
    FilterAppend(front, back, NotShilajitTea());
    if forall i :: 0 <= i < |front| ==> front[i].name != "Shilajit Tea" {
      FilterKeepsAll(front, NotShilajitTea());
    }
  }

  /** The management card is given to the page when there is a user and a subscription. */
  predicate ShowsManagement(user: Option<string>, currentSubscription: Option<CurrentSubscription>) {
    user.Some? && currentSubscription.Some?
  }
}
