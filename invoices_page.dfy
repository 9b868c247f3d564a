/** The invoices page: which view it shows, when the New Invoice button is
    disabled, the limit alert, the table's cell fallbacks and the delete dialog state. */
module InvoicesPage {
  import opened Common
  import opened InvoiceHooks

  datatype View = UserSpinner | SignInAlert | InvoicesSpinner | ErrorAlert(message: string) | Table

  /** The view, chosen by the page's early returns in order. */
  function SelectView(userLoading: bool, signedIn: bool, invoicesLoading: bool, error: Option<string>): (v: View)
    ensures v == UserSpinner <==> userLoading
    ensures v == SignInAlert <==> !userLoading && !signedIn
    ensures v == InvoicesSpinner <==> !userLoading && signedIn && invoicesLoading
    ensures v.ErrorAlert? <==> !userLoading && signedIn && !invoicesLoading && error.Some?
    ensures v.ErrorAlert? ==> v.message == error.value
    ensures v == Table <==> !userLoading && signedIn && !invoicesLoading && error.None?
  {
    if userLoading then UserSpinner
    else if !signedIn then SignInAlert
    else if invoicesLoading then InvoicesSpinner
    else if error.Some? then ErrorAlert(error.value)
    else Table
  }

  /** `disabled={!canCreate || isLoading}` with `isLoading = userLoading || invoicesLoading`. */
  predicate NewInvoiceDisabled(canCreate: bool, userLoading: bool, invoicesLoading: bool) {
    !canCreate || userLoading || invoicesLoading
  }

  /** `currentCount >= maxInvoices`. */
  predicate ShowsLimitAlert(g: CanCreateInvoice) {
    g.currentCount >= g.maxInvoices
  }

  /** The page's alert is the exact negation of the hook's gate, and on the table
      view the button is disabled exactly when the gate refuses. */
  lemma AlertIsRefusal(subscription: Option<InvoiceLimits>, count: Option<int>, error: Option<string>)
    ensures var g := CanCreate(subscription, count);
      && (ShowsLimitAlert(g) <==> !g.canCreate)
      && (SelectView(false, true, false, error) == Table ==> (NewInvoiceDisabled(g.canCreate, false, false) <==> ShowsLimitAlert(g)))
  {
  }

  /** The PDF file name: `invoice-<number>.pdf`, `unknown` standing in for a missing number. */
  function PdfFileName(invoiceNumber: Option<string>): (r: string)
    ensures StartsWith(r, "invoice-") && r[|r| - 4..] == ".pdf"
    ensures Truthy(invoiceNumber) ==> r == "invoice-" + invoiceNumber.value + ".pdf"
    ensures !Truthy(invoiceNumber) ==> r == "invoice-unknown.pdf"
  {
    var r := "invoice-" + OrElse(invoiceNumber, "unknown") + ".pdf";
    assert r[..8] == "invoice-";
    r
  }

  /** The name column: the first item's name, or `N/A`. */
  function NameCell(inv: Invoice): (r: string)
    ensures inv.items != [] && Truthy(inv.items[0].invoiceName) ==> r == inv.items[0].invoiceName.value
    ensures inv.items == [] || !Truthy(inv.items[0].invoiceName) ==> r == "N/A"
  {
    OrElse(if inv.items == [] then None else inv.items[0].invoiceName, "N/A")
  }

  /** The client column: the client's name, or `N/A`. */
  function ClientCell(inv: Invoice): (r: string)
    ensures inv.clients.Some? && inv.clients.value.name != "" ==> r == inv.clients.value.name
    ensures inv.clients.None? || inv.clients.value.name == "" ==> r == "N/A"
  {
    OrElse(if inv.clients.Some? then Some(inv.clients.value.name) else None, "N/A")
  }

  const PaidBadge: string := "bg-green-100 text-green-800"
  const OpenBadge: string := "bg-orange-100 text-orange-800"

  function StatusBadge(status: string): (r: string)
    ensures r == PaidBadge <==> status == "paid"
    ensures r == OpenBadge <==> status != "paid"
  {
    if status == "paid" then PaidBadge else OpenBadge
  }

  /** The state behind the delete confirmation. */
  class DeleteState {
    var deleteDialogOpen: bool
    var selectedInvoice: Option<Invoice>

    constructor ()
      ensures !deleteDialogOpen && selectedInvoice.None?
    {
      deleteDialogOpen, selectedInvoice := false, None;
    }

    /** The trash button of a row: select that invoice and open the dialog. */
    method AskToDelete(inv: Invoice)
      modifies this
      ensures selectedInvoice == Some(inv) && deleteDialogOpen
    {
      selectedInvoice := Some(inv);
      deleteDialogOpen := true;
    }
  }
}
