/** The subscription management card: status colours, the invoice limit it
    advertises, whether it renders, its badge and its past-due warning. */
module SubscriptionManagement {
  import opened Common
  import opened PriceIds
  import opened Subscription
  import opened Pricing

  /** The `subscription` prop: the plan name and the raw status, each possibly null. */
  datatype SubscriptionProp = SubscriptionProp(subscription: Option<string>, subscriptionStatus: Option<string>)

  const Green: string := "bg-green-100 text-green-800"
  const Blue: string := "bg-blue-100 text-blue-800"
  const Yellow: string := "bg-yellow-100 text-yellow-800"
  const Red: string := "bg-red-100 text-red-800"
  const Grey: string := "bg-gray-100 text-gray-800"

  /** `getStatusColor`. */
  function StatusColor(status: Option<string>): (r: string)
    ensures r == Green <==> status == Some("active")
    ensures r == Blue <==> status == Some("trialing")
    ensures r == Yellow <==> status == Some("past_due")
    ensures r == Red <==> status == Some("canceled") || status == Some("incomplete_expired")
    ensures r == Grey <==> status.None? || status.value !in {"active", "trialing", "past_due", "canceled", "incomplete_expired"}
  {
    if status == Some("active") then Green
    else if status == Some("trialing") then Blue
    else if status == Some("past_due") then Yellow
    else if status == Some("canceled") || status == Some("incomplete_expired") then Red
    else Grey
  }

  /** `getInvoiceLimit`: the advertised limit, as text. */
  function InvoiceLimitLabel(plan: Option<string>): (r: string)
    ensures plan == Some("New Freelancer") ==> r == "50"
    ensures plan == Some("Seasoned Freelancer") ==> r == "125"
    ensures plan == Some("Expert Freelancer") ==> r == "500"
    ensures plan.None? || plan.value !in {"New Freelancer", "Seasoned Freelancer", "Expert Freelancer"} ==> r == "10"
  {
    if plan == Some("New Freelancer") then "50"
    else if plan == Some("Seasoned Freelancer") then "125"
    else if plan == Some("Expert Freelancer") then "500"
    else "10"
  }

  /** The decimal renderings of the four limits `getSubscriptionAccess` gives. */
  lemma LimitRenderings()
    ensures DecimalString(10) == "10" && DecimalString(50) == "50"
    ensures DecimalString(125) == "125" && DecimalString(500) == "500"
  {
    assert DecimalString(1) == "1" && DecimalString(5) == "5" && DecimalString(12) == "12";
    assert DecimalString(50) == DecimalString(5) + "0";
    assert DecimalString(10) == DecimalString(1) + "0";
    assert DecimalString(125) == DecimalString(12) + "5";
    assert DecimalString(500) == DecimalString(50) + "0";
  }

  /** The card advertises the limit `getSubscriptionAccess` enforces: for every
      result of that helper, the label is the decimal rendering of its limit. */
  lemma LabelMatchesAccessLimit(data: Option<SubscriptionData>, now: int)
    ensures var r := GetSubscriptionAccess(data, now);
      r.invoiceLimit >= 0 && InvoiceLimitLabel(Some(r.planName)) == DecimalString(r.invoiceLimit)
  {
    LimitRenderings();
    var r := GetSubscriptionAccess(data, now);
    if r.hasAccess {
      match TierOf(data.value.stripePriceId).value
      case NewFreelancer =>
      case SeasonedFreelancer =>
      case ExpertFreelancer =>
    }
  }

  /** The render guard: nothing for no plan, an empty plan or the Free plan. */
  predicate Renders(prop: SubscriptionProp) {
    Truthy(prop.subscription) && prop.subscription.value != "Free"
  }

  /** The status badge text. */
  function BadgeText(prop: SubscriptionProp): (r: string)
    ensures Truthy(prop.subscriptionStatus) ==> r == prop.subscriptionStatus.value
    ensures !Truthy(prop.subscriptionStatus) ==> r == "active"
  {
    OrElse(prop.subscriptionStatus, "active")
  }

  predicate ShowsPastDueWarning(prop: SubscriptionProp) {
    prop.subscriptionStatus == Some("past_due")
  }

  function PropOf(c: CurrentSubscription): SubscriptionProp {
    SubscriptionProp(Some(c.subscription), Some(c.subscriptionStatus))
  }

  /** On the pricing page the card is visible exactly when the user has paid
      access under `getSubscriptionAccess`: access granted and a known price id. */
  lemma CardShownIffPaidAccess(user: Option<string>, fetched: Option<SubscriptionData>, now: int)
    ensures var current := PageSubscription(user, fetched, now);
      (ShowsManagement(user, current) && Renders(PropOf(current.value)))
      <==> user.Some? && GetSubscriptionAccess(fetched, now).hasAccess
  {
    if user.Some? {
      PageAgreesWithAccessHelper(user.value, fetched, now);
    }
  }

  /** A card the pricing page shows is coloured green for an active subscription
      and red for one running out its canceled period; it never warns of past due. */
  lemma ShownCardColour(user: Option<string>, fetched: Option<SubscriptionData>, now: int)
    requires var current := PageSubscription(user, fetched, now);
      ShowsManagement(user, current) && Renders(PropOf(current.value))
    ensures var prop := PropOf(PageSubscription(user, fetched, now).value);
      && StatusColor(prop.subscriptionStatus) in {Green, Red}
      && (StatusColor(prop.subscriptionStatus) == Red <==> fetched.value.status == "canceled")
      && !ShowsPastDueWarning(prop)
  {
  }
}
