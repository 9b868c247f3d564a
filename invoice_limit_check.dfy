/** The invoice limit banner: it loads the stored count and limit of the signed-in
    user once, then shows an alert above its children when the count has reached
    the limit. */
module InvoiceLimitCheck {
  import opened Common

  /** The `invoice_count, max_invoices` columns of the user's row, each possibly null. */
  datatype UserLimitsRow = UserLimitsRow(invoiceCount: Option<int>, maxInvoices: Option<int>)

  datatype Limits = Limits(count: int, max: int)

  /** The values the effect stores: the row's values with `|| 0` and `|| 10`, or
      0 and 10 when there is no row. A stored limit is never 0. */
  function LoadedLimits(row: Option<UserLimitsRow>): (r: Limits)
    ensures row.None? ==> r == Limits(0, 10)
    ensures row.Some? ==> r.count == NumOr(row.value.invoiceCount, 0) && r.max == NumOr(row.value.maxInvoices, 10)
    ensures r.max != 0
  {
    if row.Some? then Limits(NumOr(row.value.invoiceCount, 0), NumOr(row.value.maxInvoices, 10))
    else Limits(0, 10)
  }

  /** The alert test `invoiceCount >= maxInvoices`. */
  predicate AtLimit(l: Limits) {
    l.count >= l.max
  }

  /** A user without a stored row, or whose row has a null or zero limit, is
      held to ten invoices: the alert appears exactly from the tenth on. */
  lemma DefaultLimitIsTen(row: Option<UserLimitsRow>)
    requires row.None? || row.value.maxInvoices.None? || row.value.maxInvoices == Some(0)
    ensures row.Some? ==> (AtLimit(LoadedLimits(row)) <==> NumOr(row.value.invoiceCount, 0) >= 10)
    ensures row.None? ==> !AtLimit(LoadedLimits(row))
  {
  }

  class LimitCheck {
    var invoiceCount: Option<int>
    var maxInvoices: Option<int>
    var loading: bool

    constructor ()
      ensures invoiceCount.None? && maxInvoices.None? && loading
    {
      invoiceCount, maxInvoices, loading := None, None, true;
    }

    /** `checkInvoiceLimit`, given the signed-in user (if any) and the fetched row. */
    method CheckInvoiceLimit(user: Option<string>, row: Option<UserLimitsRow>)
      modifies this
      ensures !loading
      ensures user.None? ==> invoiceCount == old(invoiceCount) && maxInvoices == old(maxInvoices)
      ensures user.Some? ==>
        invoiceCount == Some(LoadedLimits(row).count) && maxInvoices == Some(LoadedLimits(row).max)
      ensures user.Some? ==> (ShowsAlert() <==> AtLimit(LoadedLimits(row)))
      ensures user.None? && old(invoiceCount).None? ==> !ShowsAlert()
    {
      if user.None? {
        loading := false;
        return;
      }
      if row.Some? {
        invoiceCount := Some(NumOr(row.value.invoiceCount, 0));
        maxInvoices := Some(NumOr(row.value.maxInvoices, 10));
      } else {
        invoiceCount := Some(0);
        maxInvoices := Some(10);
      }
      loading := false;
    }

    /** Whether the alert shows; the children are rendered in every case. */
    predicate ShowsAlert()
      reads this
    {
      !loading && invoiceCount.Some? && maxInvoices.Some? && invoiceCount.value >= maxInvoices.value
    }
  }
}
