/** The invoice data hooks: the subscription-to-limit decision, the invoice count,
    the enrichment of fetched invoices with their client and items, the optimistic
    cache updates, and the "can create another invoice" gate. */
module InvoiceHooks {
  import opened Common
  import opened PriceIds
  import opened Subscription

  /** A row of the invoices table. */
  datatype InvoiceRow = InvoiceRow(
    id: string, userId: string, clientId: string, invoiceNumber: string,
    issueDate: string, dueDate: string, status: string,
    subtotal: real, taxRate: real, taxAmount: real, total: real,
    notes: Option<string>, createdAt: string, updatedAt: string)

  datatype ClientRef = ClientRef(id: string, name: string)

  /** A row of the invoice_items table. */
  datatype InvoiceItem = InvoiceItem(
    id: string, invoiceId: string, invoiceName: Option<string>, description: string,
    quantity: real, unitPrice: real, amount: real)

  /** An invoice as the cache holds it: the row, its joined client and its items. */
  datatype Invoice = Invoice(row: InvoiceRow, clients: Option<ClientRef>, items: seq<InvoiceItem>)

  /** What `useUserSubscription` resolves to. */
  datatype InvoiceLimits = InvoiceLimits(maxInvoices: int, status: string)

  // ---------------------------------------------------------------- limits

  /** This hook's invoice limit per tier (40/20/10), and 2 for an unknown price id. */
  function HookInvoiceLimit(t: Option<Tier>): int {
    match t
    case Some(ExpertFreelancer) => 40
    case Some(SeasonedFreelancer) => 20
    case Some(NewFreelancer) => 10
    case None => 2
  }

  /** The `let maxInvoices = 2; switch (stripe_price_id) { ... }` step. */
  method MaxInvoicesFor(priceId: string) returns (maxInvoices: int)
    ensures maxInvoices == HookInvoiceLimit(TierOf(priceId))
  {
    maxInvoices := 2;
    if priceId == ExpertCurrent {
      maxInvoices := 40;
    } else if priceId == SeasonedCurrent {
      maxInvoices := 20;
    } else if priceId == NewCurrent {
      maxInvoices := 10;
    } else if priceId == ExpertLegacy {
      maxInvoices := 40;
    } else if priceId == SeasonedLegacy {
      maxInvoices := 20;
    } else if priceId == NewLegacy {
      maxInvoices := 10;
    }
  }

  /** The query function of `useUserSubscription`, with the fetched row and the
      current time as inputs. */
  method UserSubscription(userId: string, fetched: QueryResult<SubscriptionData>, now: int)
    returns (r: Result<InvoiceLimits>)
    ensures userId == "" ==> r == Err("User ID required")
    ensures userId != "" && (fetched.QueryError? || fetched.data.None?) ==> r == Ok(InvoiceLimits(2, "free"))
    ensures userId != "" && fetched.QueryData? && fetched.data.Some? ==>
      var d := fetched.data.value;
      r == if HasAccess(d, now) then Ok(InvoiceLimits(HookInvoiceLimit(TierOf(d.stripePriceId)), "active"))
           else Ok(InvoiceLimits(2, "expired"))
    ensures r.Ok? ==> r.value.status in {"free", "active", "expired"} && r.value.maxInvoices in {2, 10, 20, 40}
  {
    if userId == "" {
      return Err("User ID required");
    }
    if fetched.QueryError? {
      return Ok(InvoiceLimits(2, "free"));
    }
    if fetched.data.Some? {
      var d := fetched.data.value;
      if HasAccess(d, now) {
        var maxInvoices := MaxInvoicesFor(d.stripePriceId);
        return Ok(InvoiceLimits(maxInvoices, "active"));
      } else {
        return Ok(InvoiceLimits(2, "expired"));
      }
    }
    return Ok(InvoiceLimits(2, "free"));
  }

  /** The query function of `useInvoiceCount`: the stored count, 0 when it is null. */
  function InvoiceCount(userId: string, fetched: QueryResult<Option<int>>): (r: Result<int>)
    ensures userId == "" ==> r == Err("User ID required")
    ensures userId != "" && fetched.QueryError? ==> r == Err(fetched.message)
    ensures userId != "" && fetched.QueryData? ==>
      r.Ok? && (fetched.data.Some? && fetched.data.value.Some? ==> r.value == fetched.data.value.value)
      && (fetched.data.None? || fetched.data.value.None? ==> r.value == 0)
  {
    if userId == "" then Err("User ID required")
    else if fetched.QueryError? then Err(fetched.message)
    else if fetched.data.None? then Ok(0)
    else Ok(NumOr(fetched.data.value, 0))
  }

  // ---------------------------------------------------------------- enrichment

  /** The items of one invoice, in the order they were fetched. */
  function ItemsFor(items: seq<InvoiceItem>, invoiceId: string): seq<InvoiceItem> {
    Filter(items, (it: InvoiceItem) => it.invoiceId == invoiceId)
  }

  /** Builds `itemsMap`: one entry per invoice id that has items, holding
      exactly those items in fetch order. */
  method GroupItems(items: seq<InvoiceItem>) returns (itemsMap: map<string, seq<InvoiceItem>>)
    ensures forall id :: id in itemsMap <==> ItemsFor(items, id) != []
    ensures forall id :: id in itemsMap ==> itemsMap[id] == ItemsFor(items, id)
  {
    itemsMap := map[];
    for i := 0 to |items|
      invariant forall id :: id in itemsMap <==> ItemsFor(items[..i], id) != []
      invariant forall id :: id in itemsMap ==> itemsMap[id] == ItemsFor(items[..i], id)
    {
      var item := items[i];
      assert items[..i + 1][..i] == items[..i];
      if item.invoiceId !in itemsMap {
        itemsMap := itemsMap[item.invoiceId := []];
      }
      itemsMap := itemsMap[item.invoiceId := itemsMap[item.invoiceId] + [item]];
    }
    assert items[..|items|] == items;
  }

  /** The client a `Map` built from `clients` returns for `id`: the last one with
      that id, since later entries overwrite earlier ones. */
  function LastClient(clients: seq<ClientRef>, id: string): (r: Option<ClientRef>)
    ensures r.Some? ==> r.value in clients && r.value.id == id
    ensures r.None? <==> forall i :: 0 <= i < |clients| ==> clients[i].id != id
  {
    if clients == [] then None
    else if clients[|clients| - 1].id == id then Some(clients[|clients| - 1])
    else LastClient(clients[..|clients| - 1], id)
  }

  /** `new Map(clients.map(client => [client.id, client]))`. */
  function ClientsMap(clients: seq<ClientRef>): (m: map<string, ClientRef>)
    ensures forall id :: id in m <==> LastClient(clients, id).Some?
    ensures forall id :: id in m ==> m[id] == LastClient(clients, id).value
  {
    if clients == [] then map[]
    else ClientsMap(clients[..|clients| - 1])[clients[|clients| - 1].id := clients[|clients| - 1]]
  }

  /** Whether any fetched invoice names a client, so that clients are queried at all. */
  predicate AnyClientId(rows: seq<InvoiceRow>) {
    exists i :: 0 <= i < |rows| && rows[i].clientId != ""
  }

  /** The clients that reach the lookup: none when no invoice names a client. */
  function FetchedClients(rows: seq<InvoiceRow>, clientsResult: QueryResult<seq<ClientRef>>): seq<ClientRef> {
    if AnyClientId(rows) then ListData(clientsResult) else []
  }

  /** The query function of `useInvoices`, with the three query results as inputs. */
  method LoadInvoices(
    userId: string,
    invoicesResult: QueryResult<seq<InvoiceRow>>,
    clientsResult: QueryResult<seq<ClientRef>>,
    itemsResult: QueryResult<seq<InvoiceItem>>)
    returns (r: Result<seq<Invoice>>)
    ensures userId == "" ==> r == Err("User ID is required")
    ensures userId != "" && invoicesResult.QueryError? ==> r == Err(invoicesResult.message)
    ensures userId != "" && invoicesResult.QueryData? ==>
      var rows := ListData(invoicesResult);
      var clients := FetchedClients(rows, clientsResult);
      && r.Ok? && |r.value| == |rows|
      && forall i :: 0 <= i < |rows| ==>
           && r.value[i].row == rows[i]
           && r.value[i].items == ItemsFor(ListData(itemsResult), rows[i].id)
           && r.value[i].clients == LastClient(clients, rows[i].clientId)
  {
    if userId == "" {
      return Err("User ID is required");
    }
    if invoicesResult.QueryError? {
      return Err(invoicesResult.message);
    }
    var rows := ListData(invoicesResult);
    if |rows| == 0 {
      return Ok([]);
    }
    var clientsMap := ClientsMap(FetchedClients(rows, clientsResult));
    var itemsMap := GroupItems(ListData(itemsResult));
    var enriched := seq(|rows|, i requires 0 <= i < |rows| =>
      Invoice(rows[i],
              if rows[i].clientId in clientsMap then Some(clientsMap[rows[i].clientId]) else None,
              if rows[i].id in itemsMap then itemsMap[rows[i].id] else []));
    return Ok(enriched);
  }

  // ---------------------------------------------------------------- optimistic updates

  /** The fields an update may carry; absent fields keep their cached value. */
  datatype InvoicePatch = InvoicePatch(
    userId: Option<string>, clientId: Option<string>, invoiceNumber: Option<string>,
    issueDate: Option<string>, dueDate: Option<string>, status: Option<string>,
    subtotal: Option<real>, taxRate: Option<real>, taxAmount: Option<real>, total: Option<real>,
    notes: Option<string>)

  /** `{ ...invoice, ...updates, updated_at: stamp }`: every field the patch
      carries replaces the cached one, the others stay, and the update time is
      the stamp. */
  function ApplyPatch(inv: Invoice, p: InvoicePatch, stamp: string): (r: Invoice)
    ensures r.clients == inv.clients && r.items == inv.items
    ensures r.row.id == inv.row.id && r.row.createdAt == inv.row.createdAt && r.row.updatedAt == stamp
    ensures r.row.userId == GetOr(p.userId, inv.row.userId)
    ensures r.row.clientId == GetOr(p.clientId, inv.row.clientId)
    ensures r.row.invoiceNumber == GetOr(p.invoiceNumber, inv.row.invoiceNumber)
    ensures r.row.issueDate == GetOr(p.issueDate, inv.row.issueDate)
    ensures r.row.dueDate == GetOr(p.dueDate, inv.row.dueDate)
    ensures r.row.status == GetOr(p.status, inv.row.status)
    ensures r.row.subtotal == GetOr(p.subtotal, inv.row.subtotal)
    ensures r.row.taxRate == GetOr(p.taxRate, inv.row.taxRate)
    ensures r.row.taxAmount == GetOr(p.taxAmount, inv.row.taxAmount)
    ensures r.row.total == GetOr(p.total, inv.row.total)
    ensures p.notes.Some? ==> r.row.notes == p.notes
    ensures p.notes.None? ==> r.row.notes == inv.row.notes
  {
    var row := inv.row;
    inv.(row := row.(
      userId := GetOr(p.userId, row.userId),
      clientId := GetOr(p.clientId, row.clientId),
      invoiceNumber := GetOr(p.invoiceNumber, row.invoiceNumber),
      issueDate := GetOr(p.issueDate, row.issueDate),
      dueDate := GetOr(p.dueDate, row.dueDate),
      status := GetOr(p.status, row.status),
      subtotal := GetOr(p.subtotal, row.subtotal),
      taxRate := GetOr(p.taxRate, row.taxRate),
      taxAmount := GetOr(p.taxAmount, row.taxAmount),
      total := GetOr(p.total, row.total),
      notes := if p.notes.Some? then p.notes else row.notes,
      updatedAt := stamp))
  }

  /** The optimistic update of `useUpdateInvoice`: only the invoice with the id
      changes, and it keeps its id, creation time, client and items. */
  function OptimisticUpdate(cache: Option<seq<Invoice>>, id: string, p: InvoicePatch, stamp: string): (r: seq<Invoice>)
    ensures |r| == |Cached(cache)|
    ensures forall i :: 0 <= i < |r| && Cached(cache)[i].row.id != id ==> r[i] == Cached(cache)[i]
    ensures forall i :: 0 <= i < |r| && Cached(cache)[i].row.id == id ==>
      && r[i].row.id == id && r[i].row.createdAt == Cached(cache)[i].row.createdAt
      && r[i].clients == Cached(cache)[i].clients && r[i].items == Cached(cache)[i].items
      && r[i].row.updatedAt == stamp
      && (p.status.Some? ==> r[i].row.status == p.status.value)
      && (p.status.None? ==> r[i].row.status == Cached(cache)[i].row.status)
    ensures forall i :: 0 <= i < |r| && Cached(cache)[i].row.id == id ==> r[i] == ApplyPatch(Cached(cache)[i], p, stamp)
  {
    var s := Cached(cache);
    seq(|s|, i requires 0 <= i < |s| => if s[i].row.id == id then ApplyPatch(s[i], p, stamp) else s[i])
  }

  /** Applying the same optimistic update twice gives what applying it once gives. */
  lemma OptimisticUpdateIdempotent(cache: Option<seq<Invoice>>, id: string, p: InvoicePatch, stamp: string)
    ensures OptimisticUpdate(Some(OptimisticUpdate(cache, id, p, stamp)), id, p, stamp)
         == OptimisticUpdate(cache, id, p, stamp)
  {
    var once := OptimisticUpdate(cache, id, p, stamp);
    var twice := OptimisticUpdate(Some(once), id, p, stamp);
    assert forall i :: 0 <= i < |once| ==> twice[i] == once[i];
  }

  function KeepOtherInvoices(id: string): Invoice -> bool {
    (inv: Invoice) => inv.row.id != id
  }

  function HasInvoiceId(id: string): Invoice -> bool {
    (inv: Invoice) => inv.row.id == id
  }

  /** The optimistic delete of `useDeleteInvoice`: exactly the invoices with the id
      leave the list, the others stay, in order. */
  function OptimisticDelete(cache: Option<seq<Invoice>>, id: string): (r: seq<Invoice>)
    ensures forall i :: 0 <= i < |r| ==> r[i].row.id != id && r[i] in Cached(cache)
    ensures forall i :: 0 <= i < |Cached(cache)| && Cached(cache)[i].row.id != id ==> Cached(cache)[i] in r
    ensures |r| + |Filter(Cached(cache), HasInvoiceId(id))| == |Cached(cache)|
  {
    FilterSplitsLength(Cached(cache), KeepOtherInvoices(id), HasInvoiceId(id));
    Filter(Cached(cache), KeepOtherInvoices(id))
  }

  /** The optimistic delete distributes over concatenation, so the invoices
      that stay keep their order. */
  lemma OptimisticDeleteKeepsOrder(front: seq<Invoice>, back: seq<Invoice>, id: string)
    ensures OptimisticDelete(Some(front + back), id)
         == OptimisticDelete(Some(front), id) + OptimisticDelete(Some(back), id)
  {
    FilterAppend(front, back, KeepOtherInvoices(id));
  }

  /** Deleting an id that is not cached leaves the list as it was, and deleting
      an id a second time changes nothing more. */
  lemma OptimisticDeleteStable(cache: Option<seq<Invoice>>, id: string)
    ensures (forall i :: 0 <= i < |Cached(cache)| ==> Cached(cache)[i].row.id != id) ==>
      OptimisticDelete(cache, id) == Cached(cache)
    ensures OptimisticDelete(Some(OptimisticDelete(cache, id)), id) == OptimisticDelete(cache, id)
  {
    if forall i :: 0 <= i < |Cached(cache)| ==> Cached(cache)[i].row.id != id {
      FilterKeepsAll(Cached(cache), KeepOtherInvoices(id));
    }
    FilterKeepsAll(OptimisticDelete(cache, id), KeepOtherInvoices(id));
  }

  // ---------------------------------------------------------------- gate

  datatype CanCreateInvoice = CanCreateInvoice(
    canCreate: bool, currentCount: int, maxInvoices: int, subscriptionStatus: string)

  /** `useCanCreateInvoice`, from the two query results (`None` while loading). */
  function CanCreate(subscription: Option<InvoiceLimits>, invoiceCount: Option<int>): (r: CanCreateInvoice)
    ensures r.currentCount == GetOr(invoiceCount, 0)
    ensures subscription.None? ==> r.maxInvoices == 2 && r.subscriptionStatus == "free"
    ensures subscription.Some? ==>
      r.maxInvoices == (if subscription.value.maxInvoices == 0 then 2 else subscription.value.maxInvoices)
      && r.subscriptionStatus == OrElse(Some(subscription.value.status), "free")
    ensures r.canCreate <==> r.currentCount < r.maxInvoices
  {
    var maxInvoices := if subscription.Some? then NumOr(Some(subscription.value.maxInvoices), 2) else 2;
    var count := NumOr(invoiceCount, 0);
    CanCreateInvoice(count < maxInvoices, count, maxInvoices,
                     if subscription.Some? then OrElse(Some(subscription.value.status), "free") else "free")
  }

  /** Once creation is refused at some count, it is refused at every larger count. */
  lemma CanCreateMonotone(subscription: Option<InvoiceLimits>, n: int, m: int)
    requires n <= m && !CanCreate(subscription, Some(n)).canCreate
    ensures !CanCreate(subscription, Some(m)).canCreate
  {
  }

  /** With no subscription data yet, two invoices may be created and the third is refused. */
  lemma FreeTierGate()
    ensures CanCreate(None, Some(0)).canCreate && CanCreate(None, None).canCreate
    ensures CanCreate(None, Some(1)).canCreate && !CanCreate(None, Some(2)).canCreate
  {
  }
}
