/** The create-invoice dialog: the amounts computed from the form, and the
    submit sequence that inserts the invoice and its first item, bumps the
    stored invoice count and closes the dialog. The database answers are inputs;
    the writes and navigation the dialog performs are recorded as effects. */
module CreateInvoiceDialog {
  import opened Common

  /** The form fields the submit handler reads; a number that does not parse is `None`. */
  datatype InvoiceForm = InvoiceForm(
    quantity: Option<real>, unitPrice: Option<real>, taxRate: Option<real>,
    issueDate: string, dueDate: string, notes: string, clientId: string, invoiceName: string)

  datatype Amounts = Amounts(
    quantity: real, unitPrice: real, taxRate: real, subtotal: real, taxAmount: real, total: real)

  /** The invoice row the dialog inserts. */
  datatype NewInvoice = NewInvoice(
    userId: string, invoiceNumber: string, issueDate: string, dueDate: string, status: string,
    subtotal: real, taxRate: real, taxAmount: real, total: real, notes: string, clientId: string)

  /** The item row the dialog inserts for the new invoice. */
  datatype NewItem = NewItem(
    invoiceId: string, description: string, quantity: real, unitPrice: real, amount: real, invoiceName: string)

  datatype Effect =
    | Redirect(path: string)
    | InsertInvoice(invoice: NewInvoice)
    | InsertItem(item: NewItem)
    | SetInvoiceCount(userId: string, count: int)
    | SuccessCallback

  /** The parse defaults and the three derived amounts. */
  function ComputeAmounts(f: InvoiceForm): (a: Amounts)
    ensures a.quantity == RealOr(f.quantity, 1.0)
    ensures a.unitPrice == RealOr(f.unitPrice, 0.0) && a.taxRate == RealOr(f.taxRate, 0.0)
    ensures a.subtotal == a.quantity * a.unitPrice
    ensures a.taxAmount == a.subtotal * (a.taxRate / 100.0)
    ensures a.total == a.subtotal + a.taxAmount
  {
    var quantity := RealOr(f.quantity, 1.0);
    var unitPrice := RealOr(f.unitPrice, 0.0);
    var taxRate := RealOr(f.taxRate, 0.0);
    var subtotal := quantity * unitPrice;
    var taxAmount := subtotal * (taxRate / 100.0);
    Amounts(quantity, unitPrice, taxRate, subtotal, taxAmount, subtotal + taxAmount)
  }

  /** What the amounts mean: the total is the line price raised by the tax rate,
      a blank or zero quantity counts as one, and with non-negative prices and
      rates the total is at least the subtotal, which is not negative. */
  lemma AmountsMeaning(f: InvoiceForm)
    ensures var a := ComputeAmounts(f);
      && a.total == a.quantity * a.unitPrice * (1.0 + a.taxRate / 100.0)
      && (f.quantity.None? || f.quantity == Some(0.0) ==> a.subtotal == a.unitPrice)
      && (a.quantity >= 0.0 && a.unitPrice >= 0.0 && a.taxRate >= 0.0 ==> 0.0 <= a.subtotal <= a.total)
  {
    var a := ComputeAmounts(f);
    assert a.total == a.quantity * a.unitPrice * (1.0 + a.taxRate / 100.0);
    if a.quantity >= 0.0 && a.unitPrice >= 0.0 && a.taxRate >= 0.0 {
      assert a.subtotal >= 0.0;
      assert a.taxAmount >= 0.0;
    }
  }

  function InvoiceFor(userId: string, f: InvoiceForm, now: nat): (inv: NewInvoice)
    ensures inv.status == "draft" && inv.invoiceNumber == "INV-" + DecimalString(now)
    ensures var a := ComputeAmounts(f);
      inv.subtotal == a.subtotal && inv.taxRate == a.taxRate && inv.taxAmount == a.taxAmount && inv.total == a.total
    ensures inv.userId == userId && inv.clientId == f.clientId && inv.notes == f.notes
    ensures inv.issueDate == f.issueDate && inv.dueDate == f.dueDate
  {
    var a := ComputeAmounts(f);
    NewInvoice(userId, "INV-" + DecimalString(now), f.issueDate, f.dueDate, "draft",
               a.subtotal, a.taxRate, a.taxAmount, a.total, f.notes, f.clientId)
  }

  function ItemFor(invoiceId: string, f: InvoiceForm): (item: NewItem)
    ensures var a := ComputeAmounts(f);
      item.amount == a.subtotal && item.quantity == a.quantity && item.unitPrice == a.unitPrice
    ensures item.invoiceId == invoiceId && item.description == f.invoiceName && item.invoiceName == f.invoiceName
  {
    var a := ComputeAmounts(f);
    NewItem(invoiceId, f.invoiceName, a.quantity, a.unitPrice, a.subtotal, f.invoiceName)
  }

  /** Whether the submit runs to its end: a user, the invoice inserted, and the
      item inserted when the insert returned the new row. */
  predicate Completes(user: Option<string>, inserted: Result<Option<string>>, itemError: Option<string>) {
    user.Some? && inserted.Ok? && (inserted.value.None? || itemError.None?)
  }

  /** The effects of one submit. `inserted` is the invoice insert's answer (the
      new row's id, or no row), `itemError` the item insert's error, and
      `userRow` the fetched `invoice_count` of the user's row, when there is one. */
  function SubmitEffects(user: Option<string>, f: InvoiceForm, now: nat,
                         inserted: Result<Option<string>>, itemError: Option<string>,
                         userRow: Option<Option<int>>, hasOnSuccess: bool): seq<Effect>
  {
    if user.None? then [Redirect("/sign-in")]
    else if inserted.Err? then [InsertInvoice(InvoiceFor(user.value, f, now))]
    else
      var inv := [InsertInvoice(InvoiceFor(user.value, f, now))];
      var item := if inserted.value.Some? then [InsertItem(ItemFor(inserted.value.value, f))] else [];
      if inserted.value.Some? && itemError.Some? then inv + item
      else inv + item
           + (if userRow.Some? then [SetInvoiceCount(user.value, NumOr(userRow.value, 0) + 1)] else [])
           + (if hasOnSuccess then [SuccessCallback] else [])
  }

  /** Without a user the only effect is the redirect to sign-in: nothing is written. */
  lemma NoUserNoWrites(f: InvoiceForm, now: nat, inserted: Result<Option<string>>, itemError: Option<string>,
                       userRow: Option<Option<int>>, hasOnSuccess: bool)
    ensures SubmitEffects(None, f, now, inserted, itemError, userRow, hasOnSuccess) == [Redirect("/sign-in")]
  {
  }

  /** The stored count is written only by a submit that completes, always after the
      invoice insert, and as the old count (null counting as 0) plus one. */
  lemma CountWrittenOnlyOnCompletion(user: Option<string>, f: InvoiceForm, now: nat,
                                     inserted: Result<Option<string>>, itemError: Option<string>,
                                     userRow: Option<Option<int>>, hasOnSuccess: bool, k: nat)
    requires var e := SubmitEffects(user, f, now, inserted, itemError, userRow, hasOnSuccess);
      k < |e| && e[k].SetInvoiceCount?
    ensures var e := SubmitEffects(user, f, now, inserted, itemError, userRow, hasOnSuccess);
      && Completes(user, inserted, itemError) && userRow.Some?
      && e[k] == SetInvoiceCount(user.value, NumOr(userRow.value, 0) + 1)
      && k > 0 && e[0] == InsertInvoice(InvoiceFor(user.value, f, now))
  {
  }

  /** The success callback fires exactly when the submit completes and a callback
      was given; an inserted item always carries the invoice's subtotal. */
  lemma SuccessOnlyOnCompletion(user: Option<string>, f: InvoiceForm, now: nat,
                                inserted: Result<Option<string>>, itemError: Option<string>,
                                userRow: Option<Option<int>>, hasOnSuccess: bool)
    ensures var e := SubmitEffects(user, f, now, inserted, itemError, userRow, hasOnSuccess);
      && (SuccessCallback in e <==> Completes(user, inserted, itemError) && hasOnSuccess)
      && (forall k :: 0 <= k < |e| && e[k].InsertItem? ==>
            k == 1 && e[0].InsertInvoice? && e[k].item.amount == e[0].invoice.subtotal)
  {
    var e := SubmitEffects(user, f, now, inserted, itemError, userRow, hasOnSuccess);
    if SuccessCallback in e {
      var k :| 0 <= k < |e| && e[k] == SuccessCallback;
    }
  }

  class Dialog {
    var open: bool
    var loading: bool
    /** The writes, navigation and callbacks performed so far, in order. */
    var effects: seq<Effect>

    constructor ()
      ensures !open && !loading && effects == []
    {
      open, loading, effects := false, false, [];
    }

    /** `onSubmit`, with every awaited answer as an input. */
    method Submit(user: Option<string>, f: InvoiceForm, now: nat,
                  inserted: Result<Option<string>>, itemError: Option<string>,
                  userRow: Option<Option<int>>, hasOnSuccess: bool)
      modifies this
      ensures effects == old(effects) + SubmitEffects(user, f, now, inserted, itemError, userRow, hasOnSuccess)
      ensures open == (if Completes(user, inserted, itemError) then false else old(open))
      ensures !loading
    {
      loading := true;
      if user.None? {
        effects := effects + [Redirect("/sign-in")];
        loading := false;
        return;
      }
      var userId := user.value;
      effects := effects + [InsertInvoice(InvoiceFor(userId, f, now))];
      if inserted.Err? {
        loading := false;
        return;
      }
      if inserted.value.Some? {
        effects := effects + [InsertItem(ItemFor(inserted.value.value, f))];
        if itemError.Some? {
          loading := false;
          return;
        }
      }
      if userRow.Some? {
        effects := effects + [SetInvoiceCount(userId, NumOr(userRow.value, 0) + 1)];
      }
      open := false;
      if hasOnSuccess {
        effects := effects + [SuccessCallback];
      }
      loading := false;
    }
  }
}
