/** `getSubscriptionAccess`: whether a subscription row grants access, and the plan
    name and invoice limit that go with it. */
module Subscription {
  import opened Common
  import opened PriceIds

  /** A row of the subscriptions table, as the application selects it. */
  datatype SubscriptionData = SubscriptionData(
    stripePriceId: string,
    status: string,
    currentPeriodEnd: int,   // seconds since the epoch
    cancelAtPeriodEnd: bool)

  datatype SubscriptionAccess = SubscriptionAccess(
    hasAccess: bool,
    planName: string,
    invoiceLimit: int,
    status: string)

  /** The access rule: an active subscription, or a canceled one that runs to the
      end of a period that has not ended yet. `now` is the current time in whole
      seconds. The hooks, the pricing page and this helper all apply this rule. */
  predicate HasAccess(d: SubscriptionData, now: int) {
    d.status == "active" || (d.status == "canceled" && d.cancelAtPeriodEnd && d.currentPeriodEnd > now)
  }

  /** The invoice limit this helper gives each tier. */
  function UtilsInvoiceLimit(t: Tier): int {
    match t
    case NewFreelancer => 50
    case SeasonedFreelancer => 125
    case ExpertFreelancer => 500
  }

  function Free(status: string): SubscriptionAccess {
    SubscriptionAccess(false, "Free", 10, status)
  }

  function GetSubscriptionAccess(data: Option<SubscriptionData>, now: int): (r: SubscriptionAccess)
    ensures data.None? ==> r == SubscriptionAccess(false, "Free", 10, "free")
    ensures data.Some? ==> r.status == data.value.status
    ensures r.hasAccess <==> data.Some? && HasAccess(data.value, now) && TierOf(data.value.stripePriceId).Some?
    ensures r.hasAccess ==>
      var t := TierOf(data.value.stripePriceId).value;
      r.planName == TierName(t) && r.invoiceLimit == UtilsInvoiceLimit(t)
    ensures !r.hasAccess ==> r.planName == "Free" && r.invoiceLimit == 10
  {
    if data.None? then Free("free")
    else
      var d := data.value;
      if !HasAccess(d, now) then Free(d.status)
      else if d.stripePriceId == ExpertCurrent then SubscriptionAccess(true, "Expert Freelancer", 500, d.status)
      else if d.stripePriceId == SeasonedCurrent then SubscriptionAccess(true, "Seasoned Freelancer", 125, d.status)
      else if d.stripePriceId == NewCurrent then SubscriptionAccess(true, "New Freelancer", 50, d.status)
      else if d.stripePriceId == ExpertLegacy then SubscriptionAccess(true, "Expert Freelancer", 500, d.status)
      else if d.stripePriceId == SeasonedLegacy then SubscriptionAccess(true, "Seasoned Freelancer", 125, d.status)
      else if d.stripePriceId == NewLegacy then SubscriptionAccess(true, "New Freelancer", 50, d.status)
      else Free(d.status)
  }

  /** The grace period ends at the period end itself: a canceled subscription whose
      period ends exactly now no longer grants access, one second earlier it does. */
  lemma GraceBoundary(d: SubscriptionData, now: int)
    requires d.status == "canceled" && d.cancelAtPeriodEnd
    ensures HasAccess(d, now) <==> now < d.currentPeriodEnd
    ensures !HasAccess(d, d.currentPeriodEnd) && HasAccess(d, d.currentPeriodEnd - 1)
  {
  }

  /** Access never comes back as time advances: what is denied now stays denied. */
  lemma AccessOnlyExpires(d: SubscriptionData, now: int, later: int)
    requires now <= later && !HasAccess(d, now)
    ensures !HasAccess(d, later)
  {
  }

  /** A legacy price id gives exactly the record of its current counterpart. */
  lemma LegacyMatchesCurrent(status: string, periodEnd: int, cancel: bool, now: int)
    ensures GetSubscriptionAccess(Some(SubscriptionData(ExpertLegacy, status, periodEnd, cancel)), now)
         == GetSubscriptionAccess(Some(SubscriptionData(ExpertCurrent, status, periodEnd, cancel)), now)
    ensures GetSubscriptionAccess(Some(SubscriptionData(SeasonedLegacy, status, periodEnd, cancel)), now)
         == GetSubscriptionAccess(Some(SubscriptionData(SeasonedCurrent, status, periodEnd, cancel)), now)
    ensures GetSubscriptionAccess(Some(SubscriptionData(NewLegacy, status, periodEnd, cancel)), now)
         == GetSubscriptionAccess(Some(SubscriptionData(NewCurrent, status, periodEnd, cancel)), now)
  {
  }

  /** The shape of every result: with access a paid plan and one of three limits,
      without access the Free plan and 10. */
  lemma AccessShape(data: Option<SubscriptionData>, now: int)
    ensures var r := GetSubscriptionAccess(data, now);
      (r.hasAccess ==> r.planName != "Free" && r.invoiceLimit in {50, 125, 500})
      && (!r.hasAccess ==> r.planName == "Free" && r.invoiceLimit == 10)
  {
    var r := GetSubscriptionAccess(data, now);
    if r.hasAccess {
      match TierOf(data.value.stripePriceId).value
      case NewFreelancer =>
      case SeasonedFreelancer =>
      case ExpertFreelancer =>
    }
  }
}
