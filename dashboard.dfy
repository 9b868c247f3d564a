/** The dashboard's figures: the earnings from paid invoices and the number of
    unpaid invoices, computed from the user's `total, status` rows. */
module Dashboard {
  import opened Common

  datatype InvoiceStat = InvoiceStat(total: real, status: string)

  datatype DashboardView = RedirectToSignIn | Overview(totalEarnings: real, unpaidInvoices: nat)

  /** What one row adds to the running sum of the `reduce`. */
  function PaidContribution(s: InvoiceStat): real {
    if s.status == "paid" then s.total else 0.0
  }

  /** `stats.reduce((acc, curr) => acc + (curr.status === 'paid' ? curr.total : 0), 0)`,
      folded from the left. */
  function TotalEarnings(stats: seq<InvoiceStat>): real {
    if stats == [] then 0.0 else TotalEarnings(stats[..|stats| - 1]) + PaidContribution(stats[|stats| - 1])
  }

  /** The plain sum of the totals of a list. */
  function SumTotals(stats: seq<InvoiceStat>): real {
    if stats == [] then 0.0 else stats[0].total + SumTotals(stats[1..])
  }

  function IsPaid(): InvoiceStat -> bool {
    (s: InvoiceStat) => s.status == "paid"
  }

  function IsUnpaid(): InvoiceStat -> bool {
    (s: InvoiceStat) => s.status == "unpaid"
  }

  /** The earnings of two lists joined are the earnings of each, added. */
  lemma {:induction false} EarningsAppend(a: seq<InvoiceStat>, b: seq<InvoiceStat>)
    ensures TotalEarnings(a + b) == TotalEarnings(a) + TotalEarnings(b)
  {
    if b == [] {
      assert a + b == a;
    } else {
      assert (a + b)[..|a + b| - 1] == a + b[..|b| - 1];
      EarningsAppend(a, b[..|b| - 1]);
    }
  }

  lemma {:induction false} SumTotalsAppend(a: seq<InvoiceStat>, b: seq<InvoiceStat>)
    ensures SumTotals(a + b) == SumTotals(a) + SumTotals(b)
  {
    if a == [] {
      assert a + b == b;
    } else {
      assert (a + b)[1..] == a[1..] + b;
      SumTotalsAppend(a[1..], b);
    }
  }

  /** The earnings are exactly the sum of the totals of the paid invoices. */
  lemma {:induction false} EarningsArePaidTotals(stats: seq<InvoiceStat>)
    ensures TotalEarnings(stats) == SumTotals(Filter(stats, IsPaid()))
  {
    if stats != [] {
      var init, last := stats[..|stats| - 1], stats[|stats| - 1];
      EarningsArePaidTotals(init);
      var kept := if IsPaid()(last) then [last] else [];
      SumTotalsAppend(Filter(init, IsPaid()), kept);
      assert SumTotals(kept) == PaidContribution(last) by {
        if kept != [] { assert kept[1..] == []; }
      }
    }
  }

  /** An invoice that is not paid adds nothing to the earnings. */
  lemma UnpaidAddsNothing(stats: seq<InvoiceStat>, s: InvoiceStat)
    requires s.status != "paid"
    ensures TotalEarnings(stats + [s]) == TotalEarnings(stats)
  {
    assert (stats + [s])[..|stats + [s]| - 1] == stats;
  }

  /** `stats.filter(inv => inv.status === 'unpaid').length`. */
  function UnpaidCount(stats: seq<InvoiceStat>): (n: nat)
    ensures n <= |stats|
    ensures n == 0 <==> forall i :: 0 <= i < |stats| ==> stats[i].status != "unpaid"
  {
    var r := Filter(stats, IsUnpaid());
    assert r != [] ==> r[0].status == "unpaid";
    |r|
  }

  /** The statuses the application itself writes: 'draft' when an invoice is
      created, 'paid' or 'draft' from the edit dialog, and 'sent' when it is emailed. */
  predicate AppWrittenStatus(status: string) {
    status == "draft" || status == "paid" || status == "sent"
  }

  /** For invoices the application wrote, the unpaid figure as written is always
      0, however many of them are drafts or sent and still unpaid. */
  lemma UnpaidNeverCounted(stats: seq<InvoiceStat>)
    requires forall i :: 0 <= i < |stats| ==> AppWrittenStatus(stats[i].status)
    ensures UnpaidCount(stats) == 0
    ensures OutstandingCount(stats) == |stats| - |Filter(stats, IsPaid())|
  {
  }

  /** A concrete case: one invoice sent and not yet paid is not counted. */
  lemma SentInvoiceNotCounted(total: real)
    ensures UnpaidCount([InvoiceStat(total, "sent")]) == 0
    ensures OutstandingCount([InvoiceStat(total, "sent")]) == 1
  {
    assert [InvoiceStat(total, "sent")][..0] == [];
  }

  function IsNotPaid(): InvoiceStat -> bool {
    (s: InvoiceStat) => s.status != "paid"
  }

  /** The unpaid figure corrected: the invoices not yet paid. Together with the
      paid invoices they are all of them. */
  function OutstandingCount(stats: seq<InvoiceStat>): (n: nat)
    ensures n + |Filter(stats, IsPaid())| == |stats|
    ensures n == 0 <==> forall i :: 0 <= i < |stats| ==> stats[i].status == "paid"
  {
    var r := Filter(stats, IsNotPaid());
    assert r != [] ==> r[0].status != "paid";
    FilterSplitsLength(stats, IsNotPaid(), IsPaid());
    |r|
  }

  /** The dashboard: no user redirects to sign-in; null rows count as none. */
  function DashboardFor(user: Option<string>, stats: Option<seq<InvoiceStat>>): (v: DashboardView)
    ensures user.None? ==> v == RedirectToSignIn
    ensures user.Some? && stats.None? ==> v == Overview(0.0, 0)
    ensures user.Some? && stats.Some? ==>
      v == Overview(SumTotals(Filter(stats.value, IsPaid())), UnpaidCount(stats.value))
  {
    if user.None? then RedirectToSignIn
    else
      var rows := GetOr(stats, []);
      EarningsArePaidTotals(rows);
      Overview(TotalEarnings(rows), UnpaidCount(rows))
  }

  /** The dashboard with the corrected unpaid figure. */
  function DashboardForCorrected(user: Option<string>, stats: Option<seq<InvoiceStat>>): (v: DashboardView)
    ensures user.None? ==> v == RedirectToSignIn
    ensures user.Some? && stats.None? ==> v == Overview(0.0, 0)
    ensures user.Some? && stats.Some? ==>
      v == Overview(SumTotals(Filter(stats.value, IsPaid())), |stats.value| - |Filter(stats.value, IsPaid())|)
  {
    if user.None? then RedirectToSignIn
    else
      var rows := GetOr(stats, []);
      EarningsArePaidTotals(rows);
      Overview(TotalEarnings(rows), OutstandingCount(rows))
  }
}
