/** How the four price-id tables relate: the invoice limits of
    `getSubscriptionAccess`, the invoice limits of the invoice hooks, the contract
    limits of the contract hooks and the plan names of the pricing page. Each is
    kept as written; these lemmas say where they agree and where they do not. */
module LimitTables {
  import opened Common
  import opened PriceIds
  import opened Subscription
  import opened InvoiceHooks
  import opened ContractHooks
  import opened Pricing

  /** A rank per tier, to state that every table grows with the tier. */
  function Rank(t: Tier): nat {
    match t
    case NewFreelancer => 0
    case SeasonedFreelancer => 1
    case ExpertFreelancer => 2
  }

  /** All four tables recognise the same six price ids: a price id gets a paid
      value in one table exactly when it gets one in every other. */
  lemma SameIdsEverywhere(priceId: string, status: string, periodEnd: int, cancel: bool)
    ensures var known := TierOf(priceId).Some?;
      && (HookInvoiceLimit(TierOf(priceId)) != 2 <==> known)
      && (HookContractLimit(TierOf(priceId)) != 0 <==> known)
      && (PagePlanName(TierOf(priceId)) != "Free" <==> known)
      && (GetSubscriptionAccess(Some(SubscriptionData(priceId, "active", periodEnd, cancel)), 0).hasAccess <==> known)
  {
  }

  /** Every table assigns more to a higher tier. */
  lemma TablesGrowWithTier(a: Tier, b: Tier)
    requires Rank(a) < Rank(b)
    ensures UtilsInvoiceLimit(a) < UtilsInvoiceLimit(b)
    ensures HookInvoiceLimit(Some(a)) < HookInvoiceLimit(Some(b))
    ensures HookContractLimit(Some(a)) < HookContractLimit(Some(b))
  {
  }

  /** The tables disagree on invoices: for every tier, and for the unpaid case,
      the limit `getSubscriptionAccess` reports is larger than the one the invoice
      hooks enforce (500 against 40 for Expert Freelancer). */
  lemma InvoiceTablesDisagree(t: Option<Tier>)
    ensures t.Some? ==> UtilsInvoiceLimit(t.value) > HookInvoiceLimit(t)
    ensures t.None? ==> 10 > HookInvoiceLimit(t)
    ensures UtilsInvoiceLimit(ExpertFreelancer) == 500 && HookInvoiceLimit(Some(ExpertFreelancer)) == 40
  {
  }
}
