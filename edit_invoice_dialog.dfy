/** The edit-invoice dialog: the submit sequence that updates the invoice, renames
    its first item when the name changed, and closes the dialog. The database
    answers are inputs; the writes and navigation are recorded as effects. */
module EditInvoiceDialog {
  import opened Common

  /** The form fields the submit handler reads; a number that does not parse is `None`. */
  datatype EditForm = EditForm(
    dueDate: string, status: string, taxRate: Option<real>, total: Option<real>,
    notes: string, invoiceName: string)

  /** An item of the invoice being edited, as the page passes it in. */
  datatype ItemRef = ItemRef(id: string, invoiceName: Option<string>)

  datatype InvoiceUpdate = InvoiceUpdate(
    dueDate: string, status: string, taxRate: real, total: real, notes: string, updatedAt: string)

  datatype Effect =
    | Redirect(path: string)
    | UpdateInvoice(invoiceId: string, update: InvoiceUpdate)
    | RenameItem(invoiceId: string, itemId: string, invoiceName: string)
    | SuccessCallback

  /** The update written to the invoice row: tax rate and total parsed with `|| 0`. */
  function UpdateFor(f: EditForm, stamp: string): (u: InvoiceUpdate)
    ensures u.taxRate == RealOr(f.taxRate, 0.0) && u.total == RealOr(f.total, 0.0)
    ensures u.dueDate == f.dueDate && u.status == f.status && u.notes == f.notes && u.updatedAt == stamp
  {
    InvoiceUpdate(f.dueDate, f.status, RealOr(f.taxRate, 0.0), RealOr(f.total, 0.0), f.notes, stamp)
  }

  /** `newInvoiceName && newInvoiceName !== invoice.invoice_items[0]?.invoice_name`. */
  predicate WantsRename(newName: string, items: seq<ItemRef>) {
    newName != "" && (items == [] || items[0].invoiceName != Some(newName))
  }

  /** Whether the submit runs to its end. With no items, a wanted rename reads
      the id of an item that does not exist; that throws, and the handler's
      `catch` ends the submit early with no further write. */
  predicate Completes(user: Option<string>, f: EditForm, items: seq<ItemRef>,
                      updateError: Option<string>, itemError: Option<string>) {
    && user.Some? && updateError.None?
    && (WantsRename(f.invoiceName, items) ==> items != [] && itemError.None?)
  }

  /** The effects of one submit, for the invoice `invoiceId` with its `items`. */
  function SubmitEffects(user: Option<string>, invoiceId: string, items: seq<ItemRef>, f: EditForm, stamp: string,
                         updateError: Option<string>, itemError: Option<string>, hasOnSuccess: bool): seq<Effect>
  {
    if user.None? then [Redirect("/sign-in")]
    else
      var update := [UpdateInvoice(invoiceId, UpdateFor(f, stamp))];
      if updateError.Some? then update
      else if WantsRename(f.invoiceName, items) && items == [] then update
      else
        var rename := if WantsRename(f.invoiceName, items) then [RenameItem(invoiceId, items[0].id, f.invoiceName)] else [];
        if rename != [] && itemError.Some? then update + rename
        else update + rename + (if hasOnSuccess then [SuccessCallback] else [])
  }

  /** Without a user nothing is written; a failed invoice update writes nothing
      to the items and calls nothing back. */
  lemma EarlyReturnsWriteNothingMore(invoiceId: string, items: seq<ItemRef>, f: EditForm, stamp: string,
                                     updateError: Option<string>, itemError: Option<string>, hasOnSuccess: bool)
    ensures SubmitEffects(None, invoiceId, items, f, stamp, updateError, itemError, hasOnSuccess) == [Redirect("/sign-in")]
    ensures forall u :: updateError.Some? ==>
      SubmitEffects(Some(u), invoiceId, items, f, stamp, updateError, itemError, hasOnSuccess)
        == [UpdateInvoice(invoiceId, UpdateFor(f, stamp))]
  {
  }

  /** The rename happens exactly when the new name is non-empty and differs from
      the first item's, and then it targets that item under this invoice. */
  lemma RenameOnlyWhenChanged(user: Option<string>, invoiceId: string, items: seq<ItemRef>, f: EditForm, stamp: string,
                              updateError: Option<string>, itemError: Option<string>, hasOnSuccess: bool)
    ensures var e := SubmitEffects(user, invoiceId, items, f, stamp, updateError, itemError, hasOnSuccess);
      && (|e| > 1 && e[1].RenameItem? <==>
            user.Some? && updateError.None? && items != [] && WantsRename(f.invoiceName, items))
      && (|e| > 1 && e[1].RenameItem? ==> e[1] == RenameItem(invoiceId, items[0].id, f.invoiceName))
      && (forall k :: 0 <= k < |e| && k != 1 ==> !e[k].RenameItem?)
  {
  }

  /** An unchanged name (the first item already has it) or an empty one is never written. */
  lemma SameNameNotWritten(user: Option<string>, invoiceId: string, first: ItemRef, rest: seq<ItemRef>, f: EditForm,
                           stamp: string, updateError: Option<string>, itemError: Option<string>, hasOnSuccess: bool)
    requires f.invoiceName == "" || first.invoiceName == Some(f.invoiceName)
    ensures var e := SubmitEffects(user, invoiceId, [first] + rest, f, stamp, updateError, itemError, hasOnSuccess);
      forall k :: 0 <= k < |e| ==> !e[k].RenameItem?
  {
  }

  /** The callback fires exactly when the submit completes and one was given. */
  lemma SuccessOnlyOnCompletion(user: Option<string>, invoiceId: string, items: seq<ItemRef>, f: EditForm, stamp: string,
                                updateError: Option<string>, itemError: Option<string>, hasOnSuccess: bool)
    ensures SuccessCallback in SubmitEffects(user, invoiceId, items, f, stamp, updateError, itemError, hasOnSuccess)
        <==> Completes(user, f, items, updateError, itemError) && hasOnSuccess
  {
    var e := SubmitEffects(user, invoiceId, items, f, stamp, updateError, itemError, hasOnSuccess);
    if SuccessCallback in e {
      var k :| 0 <= k < |e| && e[k] == SuccessCallback;
    }
  }

  class Dialog {
    var open: bool
    var loading: bool
    /** The writes, navigation and callbacks performed so far, in order. */
    var effects: seq<Effect>

    constructor ()
      ensures !open && !loading && effects == []
    {
      open, loading, effects := false, false, [];
    }

    /** `onSubmit` for the invoice `invoiceId` with `items`, `stamp` standing
        for `new Date().toISOString()`. */
    method Submit(user: Option<string>, invoiceId: string, items: seq<ItemRef>, f: EditForm, stamp: string,
                  updateError: Option<string>, itemError: Option<string>, hasOnSuccess: bool)
      modifies this
      ensures effects == old(effects) + SubmitEffects(user, invoiceId, items, f, stamp, updateError, itemError, hasOnSuccess)
      ensures open == (if Completes(user, f, items, updateError, itemError) then false else old(open))
      ensures !loading
    {
      loading := true;
      if user.None? {
        effects := effects + [Redirect("/sign-in")];
        loading := false;
        return;
      }
      effects := effects + [UpdateInvoice(invoiceId, UpdateFor(f, stamp))];
      if updateError.Some? {
        loading := false;
        return;
      }
      var newName := f.invoiceName;
      if newName != "" && (items == [] || items[0].invoiceName != Some(newName)) {
        if items == [] {
          // reading the first item's id throws; the catch ends the submit
          loading := false;
          return;
        }
        effects := effects + [RenameItem(invoiceId, items[0].id, newName)];
        if itemError.Some? {
          loading := false;
          return;
        }
      }
      open := false;
      if hasOnSuccess {
        effects := effects + [SuccessCallback];
      }
      loading := false;
    }
  }
}
