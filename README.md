# Freelancer workspace: decision logic in Dafny

This project models the decision logic of a freelancer business-management web
application. The application keeps clients, invoices, contracts and a lead search
against the Yelp business directory. Its paid features are gated by Stripe
subscriptions recorded in Supabase tables.

All data fetched from Supabase, Stripe, the auth service or Yelp is an input value
here. The model covers:

- the subscription access rule and the four price-id tables that are written out
  separately (`src/utils/subscription.ts`, the two `useUserSubscription` hooks and
  the pricing page);
- the usage gates that compare a count with a plan limit;
- the cache transforms of the invoice and contract hooks;
- the invoice arithmetic, the parse defaults and the step sequences of the invoice
  and contract dialogs;
- the string helpers: content preview, PDF file names, the `HH:MM:SS` clock and the
  sender-name fallbacks;
- the Yelp-to-lead transform, the lead search and the pagination of its results;
- the auth server actions, the route guard with its cookie callback, and the two
  Supabase edge functions (`get-plans` and `create-checkout`).

There is one module per source file. `Common` holds the JavaScript semantics the
source relies on:

- `Common.Truthy` and `Common.OrElse` model `x || d` on strings;
- `Common.NumOr` and `Common.RealOr` model `x || d` on numbers, where `parseFloat`
  giving `NaN` is `None`;
- `Common.Trim` models `String.prototype.trim`, using the whitespace set of the
  ECMAScript standard;
- it also has decimal strings, `padStart` and a `Filter` for `Array.prototype.filter`.

`PriceIds` names the six Stripe price ids and the tier each one belongs to. Each
table is still written as its own `switch` over the literals. The tier
classification is used only to state their contracts and to compare tables with
one another.

Where the source changes state, the model does too:

- React components and hooks with state are classes, one field per state variable;
- the side effects a handler performs (database writes, toasts, redirects, the
  `onSuccess` callback) are appended to an `effects` sequence;
- each handler's new `effects` are tied to a pure function of its inputs, and the
  lemmas are proved about that function.

Code that works by updating variables is a method:

- grouping invoice items, the page-number loop and the `setAll` cookie callback
  are loops with invariants;
- the three price-id `switch` statements of the hooks and the pricing page assign
  a variable case by case.

Where the code is inconsistent, the model follows it as written:

- The three price-id tables give different limits for the same plan, and the
  tables are not reconciled.
- In the two `useUserSubscription` hooks, an unknown price id with access is given
  status `active` and the lowest limit (2 invoices, 0 contracts), not the Free
  defaults.

## Model

| member | source | states |
|---|---|---|
| Subscription.GetSubscriptionAccess | src/utils/subscription.ts:19-98 | A missing record gives no access, plan Free, limit 10 and status free. For a record, the status is echoed. Access holds iff the rule holds and the price id is one of the six known ids. With access, the tier's name and limit 50/125/500 are returned; without it, Free and 10. |
| Subscription.GraceBoundary | src/utils/subscription.ts:32-34 | A canceled subscription set to cancel at period end grants access iff now is strictly before the period end. Access is denied at the period end and granted one second before it. |
| Subscription.AccessOnlyExpires | src/utils/subscription.ts:32-34 | Once access is denied at some time, it stays denied at every later time. |
| Subscription.LegacyMatchesCurrent | src/utils/subscription.ts:69-90 | Each legacy price id gives exactly the same record as its current counterpart, whatever the status, period and flag. |
| Subscription.AccessShape | src/utils/subscription.ts:19-98 | With access, the plan is not Free and the limit is one of 50, 125 and 500. Without access, the result is Free and 10. |
| Subscription.HasAccess | src/utils/subscription.ts:32-34 | The access rule: active, or canceled with cancel-at-period-end and the period end strictly after now. Its properties are Subscription.GraceBoundary and Subscription.AccessOnlyExpires. |
| PriceIds.KnownIds | src/utils/subscription.ts:46-90 | A price id gets a tier iff it is one of the six literals of the table. |
| LimitTables.SameIdsEverywhere | src/hooks/use-contracts.ts:112-132 | The invoice hook, the contract hook, the pricing page and the access helper recognise exactly the same six price ids. |
| LimitTables.TablesGrowWithTier | src/hooks/use-invoices.ts:152-173 | In all three limit tables, a higher tier has a strictly larger limit. |
| LimitTables.InvoiceTablesDisagree | src/hooks/use-invoices.ts:152-173 | For every tier, and for no tier at all, the hook's invoice limit is below the access helper's. Expert Freelancer gets 40 in the hook and 500 in the helper. |
| InvoiceHooks.MaxInvoicesFor | src/hooks/use-invoices.ts:152-173 | The `switch` gives 40/20/10 for the current and legacy ids of the three tiers, and 2 for any other id. |
| InvoiceHooks.HookInvoiceLimit | src/hooks/use-invoices.ts:152-173 | The hook's table by tier: 40, 20 and 10, and 2 for an unknown price id. |
| InvoiceHooks.UserSubscription | src/hooks/use-invoices.ts:122-185 | An empty user id is an error. A failed or empty fetch gives 2 and free. With a row and access, the table limit and active; without access, 2 and expired. The status is always free, active or expired, and the limit one of 2, 10, 20 and 40. |
| InvoiceHooks.InvoiceCount | src/hooks/use-invoices.ts:188-206 | An empty user id and a query error are errors. Otherwise the result is the count, with 0 for a missing or zero count. |
| InvoiceHooks.GroupItems | src/hooks/use-invoices.ts:101-108 | An invoice id is a key iff some item carries it. Each key maps to exactly the items with that id, in fetch order. |
| InvoiceHooks.ItemsFor | src/hooks/use-invoices.ts:101-108 | The reference for the grouping: the fetched items of one invoice, in fetch order. |
| InvoiceHooks.LastClient | src/hooks/use-invoices.ts:100 | A client found for an id is one of the fetched clients and has that id. None is found iff no fetched client has the id. |
| InvoiceHooks.ClientsMap | src/hooks/use-invoices.ts:100 | The client map holds an id iff some client has it, and maps it to the last such client. |
| InvoiceHooks.FetchedClients | src/hooks/use-invoices.ts:77-84 | Clients are queried only when some invoice names one; a failed or null answer gives none. |
| InvoiceHooks.LoadInvoices | src/hooks/use-invoices.ts:57-120 | An empty user id is an error, and a failed invoice query returns its message. Otherwise the result keeps the invoices' order and length. Each invoice gets exactly its own items in fetch order, and its client or null. |
| InvoiceHooks.OptimisticUpdate | src/hooks/use-invoices.ts:246-261 | The cached list keeps its length. Invoices with another id are unchanged. The invoice with the id becomes exactly the patched invoice: it keeps its id, creation time, client and items, takes every field the patch carries, and gets the timestamp. |
| InvoiceHooks.OptimisticUpdateIdempotent | src/hooks/use-invoices.ts:246-261 | Applying the same optimistic update twice gives the same list as applying it once. |
| InvoiceHooks.ApplyPatch | src/hooks/use-invoices.ts:255-258 | Each of the eleven patchable fields takes the patch's value when the patch carries one and keeps the cached value otherwise. The id, creation time, client and items are kept, and the update time is the stamp. |
| InvoiceHooks.OptimisticDelete | src/hooks/use-invoices.ts:323-325 | What remains has no invoice with the id. Every other cached invoice stays. The removed and remaining counts add up to the cache's length. |
| InvoiceHooks.OptimisticDeleteStable | src/hooks/use-invoices.ts:323-325 | Deleting an absent id changes nothing, and deleting twice is the same as deleting once. |
| InvoiceHooks.OptimisticDeleteKeepsOrder | src/hooks/use-invoices.ts:323-325 | The delete distributes over concatenation, so the invoices that stay keep their order. |
| Common.ClampedDecrement | src/hooks/use-invoices.ts:328-330 | The optimistic count becomes the old count minus one, never below 0. A missing count gives 0. |
| Common.Trim | src/components/contracts/create-contract-dialog.tsx:44 | `trim` gives a string no longer than its input that neither starts nor ends with ECMAScript whitespace. |
| Common.TrimRemovesOuterWhitespace | src/components/contracts/create-contract-dialog.tsx:44 | The trimmed string is a slice of the input with only whitespace before and after it. With the non-whitespace ends above, it is the input minus exactly its leading and trailing whitespace. |
| Common.BeforeFirst | src/hooks/use-invoice-pdf.ts:29 | `split('@')[0]`: the text before the first `@`, or the whole string without one. |
| Common.Filter | src/app/pricing/page.tsx:64 | `filter` keeps only elements satisfying the condition, each from the list, and keeps every such element. |
| Common.PadStart2 | src/components/time-tracking/time-tracking-page.tsx:47-49 | `padStart(2, '0')` gives at least two characters, ending in the string, with zeros in front. |
| Common.DecimalString | src/components/time-tracking/time-tracking-page.tsx:47-49 | `toString` of a whole number is a non-empty string of digits, a single digit iff the number is below 10. |
| Common.OrElse | src/hooks/use-invoice-pdf.ts:29-30 | `s \|\| d` on strings: a present non-empty string, else the default. |
| Common.NumOr | src/hooks/use-contracts.ts:160 | `n \|\| d` on numbers: a present non-zero number, else the default. |
| Common.RealOr | src/components/invoices/create-invoice-dialog.tsx:46-48 | `parseFloat(x) \|\| d`: a parsed non-zero number, else the default for NaN and 0. |
| Common.TrimEmptyIffAllWhitespace | src/components/contracts/create-contract-dialog.tsx:44 | A trimmed string is empty iff every character of the string is whitespace. |
| Common.DecimalRoundTrip | src/components/time-tracking/time-tracking-page.tsx:47-49 | Reading the decimal string of a number back gives the number. |
| Common.FilterAppend | src/app/pricing/page.tsx:64 | Filtering distributes over concatenation, so the kept elements keep their order. |
| InvoiceHooks.CanCreate | src/hooks/use-invoices.ts:381-391 | The gate uses the count, defaulting to 0, and the limit, defaulting to 2 (status free). canCreate holds iff the count is strictly below the limit. |
| InvoiceHooks.CanCreateMonotone | src/hooks/use-invoices.ts:386 | If the gate refuses at count n, it refuses at every larger count. |
| InvoiceHooks.FreeTierGate | src/hooks/use-invoices.ts:381-391 | Without a subscription, counts 0 and 1 (and a missing count) are allowed and count 2 is refused. |
| ContractHooks.MaxContractsFor | src/hooks/use-contracts.ts:111-132 | The `switch` gives 8/4/2 for the current and legacy ids of the three tiers, and 0 for any other id. |
| ContractHooks.HookContractLimit | src/hooks/use-contracts.ts:111-132 | The hook's table by tier: 8, 4 and 2, and 0 for an unknown price id. |
| ContractHooks.UserSubscription | src/hooks/use-contracts.ts:81-144 | An empty user id is an error. A failed or empty fetch gives 0 and free. With access, the table limit and active; without access, 0 and expired. Every status other than active has limit 0. |
| ContractHooks.ContractCount | src/hooks/use-contracts.ts:147-164 | An empty user id and a query error are errors. Otherwise the result is the count, with 0 for a missing count. |
| ContractHooks.NormaliseClient | src/hooks/use-contracts.ts:69-74 | A joined array becomes its first element, or null when empty. A single object is kept, and nothing stays nothing. |
| ContractHooks.NormaliseContract | src/hooks/use-contracts.ts:69-74 | Every column is copied, and the joined client is normalised. |
| ContractHooks.LoadContracts | src/hooks/use-contracts.ts:39-78 | An empty user id and a query error give their fixed messages. Otherwise the result keeps the rows' order and length, with each row normalised. |
| ContractHooks.OptimisticDelete | src/hooks/use-contracts.ts:254-256 | No contract with the id remains, every other one stays, and the counts add up to the cache's length. |
| ContractHooks.OptimisticDeleteKeepsOrder | src/hooks/use-contracts.ts:254-256 | The delete distributes over concatenation, so the order of the kept contracts is preserved. |
| ContractHooks.CanCreate | src/hooks/use-contracts.ts:283-293 | Without a subscription the gate is falsy, with limit 0 and status free. With one, canCreate holds iff the count is strictly below the limit. |
| ContractHooks.ZeroLimitNeverCreates | src/hooks/use-contracts.ts:283-293 | A limit of 0, which every non-active status has, never permits creation at a non-negative count. |
| ContractHooks.CanCreateMonotone | src/hooks/use-contracts.ts:288 | If the gate refuses at count n, it refuses at every larger count. |
| Pricing.PlanNameFor | src/app/pricing/page.tsx:32-53 | The `switch` gives the three tier names for the current and legacy ids, and Free for any other id. |
| Pricing.PageSubscription | src/app/pricing/page.tsx:11-61 | The page's current subscription: set only for a user with a row that has access, holding the page's plan name and the raw status. |
| Pricing.ResolveCurrentSubscription | src/app/pricing/page.tsx:11-61 | With no user or no row, currentSubscription stays null. When set, its status is the row's raw status. |
| Pricing.PageAgreesWithAccessHelper | src/app/pricing/page.tsx:26-58 | The page sets a subscription iff the row grants access. The plan name and status it sets equal those of the access helper. |
| Pricing.OfferedPlans | src/app/pricing/page.tsx:64 | No kept plan is named Shilajit Tea, each kept plan is in the list, and every other plan is kept. |
| Pricing.OfferedPlansKeepOrder | src/app/pricing/page.tsx:64 | The filter distributes over concatenation, so order is kept. A list without the name comes back unchanged. |
| Pricing.PlansOnPage | src/app/pricing/page.tsx:63-64 | A failed invoke leaves `plans` null and the `filter` call throws, so the page gives an error iff nothing was returned. Otherwise it lists the offered plans. |
| Pricing.ShowsManagement | src/app/pricing/page.tsx:80-85 | The management card is passed to the page when there is a user and a current subscription. |
| SubscriptionManagement.StatusColor | src/components/subscription-management.tsx:23-37 | active is green, trialing blue and past_due yellow. canceled and incomplete_expired are red, and anything else, null included, is grey. Each colour holds iff its condition does. |
| SubscriptionManagement.InvoiceLimitLabel | src/components/subscription-management.tsx:39-50 | New, Seasoned and Expert Freelancer show 50, 125 and 500; anything else shows 10. |
| SubscriptionManagement.LabelMatchesAccessLimit | src/components/subscription-management.tsx:39-50 | For every record and time, the label for the helper's plan name is the decimal string of the helper's invoice limit. |
| SubscriptionManagement.BadgeText | src/components/subscription-management.tsx:77 | The badge shows the status, or active when the status is empty. |
| SubscriptionManagement.CardShownIffPaidAccess | src/app/pricing/page.tsx:80-85 | The management card renders iff a user is signed in and the access helper grants access. |
| SubscriptionManagement.ShownCardColour | src/components/subscription-management.tsx:53-104 | A card the pricing page shows is green or red, red iff the status is canceled, and never shows the past-due warning. |
| SubscriptionManagement.Renders | src/components/subscription-management.tsx:53-55 | The card renders nothing for a missing, empty or Free plan. |
| SubscriptionManagement.ShowsPastDueWarning | src/components/subscription-management.tsx:97 | The warning shows iff the status is exactly past_due. |
| SubscriptionManagement.PropOf | src/app/pricing/page.tsx:82-83 | The page passes its current subscription to the card as its plan and status. |
| SubscriptionManagement.LimitRenderings | src/components/subscription-management.tsx:81 | The limits 10, 50, 125 and 500 render as those decimal strings. |
| InvoiceLimitCheck.LoadedLimits | src/components/invoice-limit-check.tsx:32-39 | With a row, the count is invoice_count or 0 and the max is max_invoices or 10. Without a row, they are 0 and 10. The max is never 0. |
| InvoiceLimitCheck.DefaultLimitIsTen | src/components/invoice-limit-check.tsx:32-39 | A missing or zero stored max behaves as 10. The alert shows iff the stored count, with null and 0 read as 0, is at least 10, and never without a row. |
| InvoiceLimitCheck.LimitCheck.CheckInvoiceLimit | src/components/invoice-limit-check.tsx:18-53 | Without a user, the counts are left as they were. With one, the loaded values are stored and the alert shows iff count >= max. Loading is false afterwards. |
| InvoiceLimitCheck.AtLimit | src/components/invoice-limit-check.tsx:53 | The alert condition: the count has reached the limit. |
| InvoiceLimitCheck.LimitCheck.ShowsAlert | src/components/invoice-limit-check.tsx:47-53 | The alert shows once loading is over, both values are set, and the count has reached the limit. |
| CreateInvoiceDialog.ComputeAmounts | src/components/invoices/create-invoice-dialog.tsx:47-53 | quantity is the parsed value or 1; unit price and tax rate are the parsed value or 0. subtotal = quantity × price, tax = subtotal × rate / 100, and total = subtotal + tax. |
| CreateInvoiceDialog.AmountsMeaning | src/components/invoices/create-invoice-dialog.tsx:47-53 | total = quantity × price × (1 + rate/100). An unparsable or zero quantity makes the subtotal the unit price. Non-negative inputs give 0 ≤ subtotal ≤ total. |
| CreateInvoiceDialog.InvoiceFor | src/components/invoices/create-invoice-dialog.tsx:56-72 | The new invoice is a draft numbered `INV-` followed by the timestamp. It carries the computed amounts and the form's user, client, notes, issue date and due date. |
| CreateInvoiceDialog.ItemFor | src/components/invoices/create-invoice-dialog.tsx:81-90 | The item's amount is the subtotal, with the same quantity and unit price as the invoice. |
| CreateInvoiceDialog.NoUserNoWrites | src/components/invoices/create-invoice-dialog.tsx:41-44 | Without a user, the only effect is the redirect to sign-in. |
| CreateInvoiceDialog.CountWrittenOnlyOnCompletion | src/components/invoices/create-invoice-dialog.tsx:74-110 | The count is written only after both inserts succeed and a user row exists, and it is written as the old count or 0, plus 1. |
| CreateInvoiceDialog.SuccessOnlyOnCompletion | src/components/invoices/create-invoice-dialog.tsx:74-120 | onSuccess fires iff every step completed and a callback was given. An inserted item always follows the invoice insert and carries its subtotal. |
| CreateInvoiceDialog.Dialog.Submit | src/components/invoices/create-invoice-dialog.tsx:33-121 | The effects grow by the submit's effects. The dialog closes iff the submit completes, and loading is false afterwards. |
| CreateInvoiceDialog.SubmitEffects | src/components/invoices/create-invoice-dialog.tsx:33-121 | The effects of one submit: the sign-in redirect without a user; otherwise the invoice insert, the item insert for a returned row, and on completion the count write and the success callback. |
| CreateInvoiceDialog.Completes | src/components/invoices/create-invoice-dialog.tsx:74-120 | A submit runs to its end iff there is a user, the invoice insert succeeds, and the item insert succeeds when a row came back. |
| EditInvoiceDialog.UpdateFor | src/components/invoices/edit-invoice-dialog.tsx:50-57 | tax_rate and total are the parsed values or 0. The other fields and the timestamp are copied. |
| EditInvoiceDialog.EarlyReturnsWriteNothingMore | src/components/invoices/edit-invoice-dialog.tsx:42-63 | Without a user, only the redirect happens. A failed invoice update is the last effect. |
| EditInvoiceDialog.RenameOnlyWhenChanged | src/components/invoices/edit-invoice-dialog.tsx:65-80 | An item rename happens iff the invoice update succeeded, there are items, and the new name is non-empty and differs from the first item's. It targets the first item of this invoice. |
| EditInvoiceDialog.SameNameNotWritten | src/components/invoices/edit-invoice-dialog.tsx:66-67 | An empty name, or the first item's own name, writes no rename. |
| EditInvoiceDialog.SuccessOnlyOnCompletion | src/components/invoices/edit-invoice-dialog.tsx:82-85 | onSuccess fires iff every write succeeded and a callback was given. |
| EditInvoiceDialog.Dialog.Submit | src/components/invoices/edit-invoice-dialog.tsx:34-91 | The effects grow by the submit's effects. The dialog closes iff the submit completes, and loading is false afterwards. |
| EditInvoiceDialog.SubmitEffects | src/components/invoices/edit-invoice-dialog.tsx:34-91 | The effects of one submit: the sign-in redirect without a user; otherwise the update, then the rename when it is wanted, and the success callback on completion. |
| EditInvoiceDialog.Completes | src/components/invoices/edit-invoice-dialog.tsx:42-85 | A submit runs to its end iff there is a user, the update succeeds, and a wanted rename has an item to target and succeeds. |
| EditInvoiceDialog.WantsRename | src/components/invoices/edit-invoice-dialog.tsx:66-67 | A rename is wanted iff the new name is non-empty and differs from the first item's name. |
| InvoicesPage.SelectView | src/components/invoices/invoices-page.tsx:87-191 | The view is chosen in this order: user spinner, sign-in alert, invoices spinner, error alert, table. Each view is shown iff the earlier conditions fail and its own holds. |
| InvoicesPage.AlertIsRefusal | src/components/invoices/invoices-page.tsx:206-214 | The limit alert shows iff the gate refuses creation. Once loaded, the New Invoice button is disabled iff the alert shows. |
| InvoicesPage.NewInvoiceDisabled | src/components/invoices/invoices-page.tsx:206 | The New Invoice button is disabled when creation is refused or either query is loading. |
| InvoicesPage.ShowsLimitAlert | src/components/invoices/invoices-page.tsx:214 | The limit alert shows when the count has reached the limit. |
| InvoicesPage.PdfFileName | src/components/invoices/invoices-page.tsx:282 | The file name is `invoice-` + (number or `unknown`) + `.pdf`. |
| InvoicesPage.NameCell | src/components/invoices/invoices-page.tsx:251 | The cell shows the first item's invoice name, or N/A. |
| InvoicesPage.ClientCell | src/components/invoices/invoices-page.tsx:252 | The cell shows the client's name, or N/A. |
| InvoicesPage.StatusBadge | src/components/invoices/invoices-page.tsx:257-259 | The badge is green iff the status is exactly paid. |
| InvoicesPage.DeleteState.AskToDelete | src/components/invoices/invoices-page.tsx:305-308 | The invoice is selected and the delete dialog opens. |
| Dashboard.EarningsArePaidTotals | src/app/dashboard/page.tsx:24 | The earnings fold equals the sum of the totals of the invoices with status exactly paid. |
| Dashboard.EarningsAppend | src/app/dashboard/page.tsx:24 | The earnings of two lists added together are the sum of their earnings. |
| Dashboard.UnpaidAddsNothing | src/app/dashboard/page.tsx:24 | Appending an invoice that is not paid leaves the earnings unchanged. |
| Dashboard.UnpaidCount | src/app/dashboard/page.tsx:25 | The unpaid count is at most the number of invoices, and 0 iff none has status exactly unpaid. |
| Dashboard.DashboardFor | src/app/dashboard/page.tsx:14-25 | No user redirects to sign-in. Null stats give 0 and 0. Otherwise the page shows the paid totals and the unpaid count. |
| Dashboard.TotalEarnings | src/app/dashboard/page.tsx:24 | The `reduce`, folded from the left, adding each paid invoice's total. Its meaning is stated by Dashboard.EarningsArePaidTotals. |
| Dashboard.SumTotals | src/app/dashboard/page.tsx:24 | The reference sum of a list's totals, against which the fold is proved. |
| Dashboard.UnpaidNeverCounted | src/app/dashboard/page.tsx:25 | As written, for invoices whose statuses are the ones the application writes (draft, paid, sent), the unpaid figure is 0, while the invoices not paid number the total minus the paid ones. |
| Dashboard.SentInvoiceNotCounted | src/app/dashboard/page.tsx:25 | One sent, unpaid invoice gives an unpaid figure of 0 as written and 1 corrected. |
| Dashboard.OutstandingCount | src/app/dashboard/page.tsx:25 | Corrected: the invoices not yet paid. With the paid ones they make up the list, and there are none iff every invoice is paid. |
| Dashboard.DashboardForCorrected | src/app/dashboard/page.tsx:14-25 | The dashboard with the corrected figure: the paid totals and the number of invoices that are not paid. |
| ContractsPage.SelectView | src/components/contracts/contracts-page.tsx:37-66 | The spinner shows iff some load is still pending or there is no user. The empty card shows iff the list is empty, and its create button is disabled iff creation is refused. |
| ContractsPage.ContentPreview | src/components/contracts/contracts-page.tsx:137-145 | Empty content shows No content. Content over 200 characters becomes its first 200 plus `...`; shorter content is unchanged. |
| ContractsPage.SanitizeChar | src/components/contracts/contracts-page.tsx:105 | A character becomes `-` iff it is not an ASCII letter or digit. Upper-case letters are lowered, and lower-case letters and digits are kept. |
| ContractsPage.Sanitize | src/components/contracts/contracts-page.tsx:105 | The sanitised title has the title's length, and every character is in `[a-z0-9-]`. |
| ContractsPage.SanitizeIdempotent | src/components/contracts/contracts-page.tsx:105 | Sanitising twice is the same as once. A title that is already safe is unchanged. |
| ContractsPage.PdfFileName | src/components/contracts/contracts-page.tsx:105 | The file name is `contract-` + sanitised title + `-` + the first 8 characters of the id + `.pdf`, each part at its place. |
| ContractsPage.ClientBadge | src/components/contracts/contracts-page.tsx:81 | The badge is the client's name, or `Unknown Client (<client id>)`. |
| ContractsPage.PdfClients | src/components/contracts/contracts-page.tsx:94-100 | The PDF gets a one-element client list when there is a client and an empty list otherwise. An empty company becomes undefined. |
| ContractsPage.PdfUserName | src/components/contracts/contracts-page.tsx:101 | The name is the full name, else the email, else Unknown User. |
| ContractsPage.PageState.EditContract | src/components/contracts/contracts-page.tsx:27-30 | The contract is selected and the edit dialog opens; the other dialogs are untouched. |
| ContractsPage.PageState.DeleteContract | src/components/contracts/contracts-page.tsx:32-35 | The contract is selected and the delete dialog opens; the other dialogs are untouched. |
| ContractsPage.PageState.OpenCreate | src/components/contracts/contracts-page.tsx:58 | The create-dialog flag is set; the other dialogs and the selection are untouched. The button is on the empty card, which does not mount the dialog, so nothing appears (ContractsPage.CreateButtonShowsNothing). |
| ContractsPage.CreateButtonEnabled | src/components/contracts/contracts-page.tsx:57-59 | The Create Contract button exists only on the empty card, and is enabled iff creation is allowed. |
| ContractsPage.CreateDialogMounted | src/components/contracts/contracts-page.tsx:152-155 | As written, the create dialog is mounted only with the list of contracts. |
| ContractsPage.CreateDialogShown | src/components/contracts/contracts-page.tsx:152-155 | The create dialog is on screen iff it is mounted and its flag is set. |
| ContractsPage.CreateButtonShowsNothing | src/components/contracts/contracts-page.tsx:48-66 | As written, the only view with an enabled create button is the empty card, and there the create dialog is never shown, whatever its flag. |
| ContractsPage.CreateDialogMountedCorrected | src/components/contracts/contracts-page.tsx:48-66 | Corrected: the empty card mounts the create dialog as well as the list. |
| ContractsPage.CorrectedCreateButtonShowsDialog | src/components/contracts/contracts-page.tsx:48-66 | With the correction, the view that has the enabled create button mounts the dialog, which the view as written does not. |
| CreateContractDialog.BlankFieldsRefused | src/components/contracts/create-contract-dialog.tsx:44-51 | The fields pass iff the title and the content are not all whitespace and the client id is not empty. |
| CreateContractDialog.ValidationError | src/components/contracts/create-contract-dialog.tsx:35-51 | A missing user gives User not authenticated before any field check; blank fields give Please fill in all fields. There is no error iff both checks pass. |
| CreateContractDialog.MutationOnlyWhenValid | src/components/contracts/create-contract-dialog.tsx:53-61 | A mutation is issued iff validation passes. It is issued first, with the user id, the raw client id and the trimmed title and content. |
| CreateContractDialog.ClosesOnlyOnSuccess | src/components/contracts/create-contract-dialog.tsx:63-79 | The dialog closes iff validation passes and the mutation succeeds. |
| CreateContractDialog.SubmitEffects | src/components/contracts/create-contract-dialog.tsx:33-83 | The effects of one submit: a refused form toasts its error; otherwise the mutation, then the failure toast, or the success toast and Close. |
| CreateContractDialog.Dialog.Edit | src/components/contracts/create-contract-dialog.tsx:98-125 | The inputs' change handlers set the three fields and change nothing else. |
| CreateContractDialog.Dialog.HandleSubmit | src/components/contracts/create-contract-dialog.tsx:33-83 | The effects grow by the submit's effects. The fields reset only on success and are kept otherwise. isSubmitting is false after any submit that reached the mutation. |
| EditContractDialog.ValidationError | src/components/contracts/edit-contract-dialog.tsx:50-66 | No contract gives No contract selected before any field check; blank fields give Please fill in all fields. There is no error iff both checks pass. |
| EditContractDialog.MutationTargetsSelectedContract | src/components/contracts/edit-contract-dialog.tsx:68-91 | A mutation is issued iff validation passes. It uses the selected contract's id and user id with the trimmed title and content, and the dialog closes iff it succeeds. |
| EditContractDialog.UntouchedSubmitKeepsFields | src/components/contracts/edit-contract-dialog.tsx:39-77 | Submitting a loaded contract unedited sends its own title, content and client back. |
| EditContractDialog.Dialog.LoadContract | src/components/contracts/edit-contract-dialog.tsx:39-45 | A selected contract loads its title, content and client id. No contract leaves the fields as they were. |
| EditContractDialog.Dialog.HandleSubmit | src/components/contracts/edit-contract-dialog.tsx:48-95 | The effects grow by the submit's effects. The fields are never reset. isSubmitting is false after any submit that reached the mutation. |
| EditContractDialog.SubmitEffects | src/components/contracts/edit-contract-dialog.tsx:48-95 | The effects of one submit: a refused form toasts its error; otherwise the update mutation for the selected contract, then the failure toast, or the success toast and Close. |
| EditContractDialog.Renders | src/components/contracts/edit-contract-dialog.tsx:97 | The dialog renders only for a selected contract. |
| EditContractDialog.Dialog.Edit | src/components/contracts/edit-contract-dialog.tsx:112-139 | The inputs' change handlers set the three fields and change nothing else. |
| Yelp.ServiceOf | src/api/server/external/yelp.ts:70 | The service is the first category's title, or Not specified. |
| Yelp.PhoneOf | src/api/server/external/yelp.ts:72 | The phone is phone, else display_phone, else Not available; it is never empty. |
| Yelp.ToLead | src/api/server/external/yelp.ts:67-76 | Name, image and website are copied. The service and phone follow their fallbacks, and the email is always Contact via Yelp. |
| Yelp.TransformYelpDataToLeads | src/api/server/external/yelp.ts:67-76 | There is one lead per business, and lead i is built from business i. |
| Yelp.TransformAppend | src/api/server/external/yelp.ts:67-76 | The transform distributes over concatenation. |
| Yelp.LeadsHaveNoEmail | src/api/server/external/yelp.ts:71-72 | Every lead's email is Contact via Yelp and its phone is never empty. |
| LeadGenerator.ValidationError | src/api/client/lead-generator.ts:23-28 | A blank trimmed business type is reported first, then a blank location. There is no error iff both are filled. |
| LeadGenerator.RefusalMessage | src/api/client/lead-generator.ts:41-43 | A non-ok answer's message is data.error, else data.message, else Failed to generate leads. |
| LeadGenerator.Outcome | src/api/client/lead-generator.ts:17-56 | A form error is returned without a request. Otherwise a thrown fetch, a non-ok answer and a non-array body give their messages. The result is leads iff the form is valid and an ok array arrives. |
| LeadGenerator.ErrorState | src/api/client/lead-generator.ts:52-56 | The stored error is the message, or the fixed fallback for an empty one. |
| LeadGenerator.InvalidFormIgnoresAnswer | src/api/client/lead-generator.ts:23-28 | With an invalid form, whatever the server would answer makes no difference. |
| LeadGenerator.Hook.GenerateLeads | src/api/client/lead-generator.ts:17-60 | The call returns its outcome. A request is logged only for a valid form. The leads are the data or empty, the error is set iff it failed, and loading is false afterwards. |
| LeadGeneratorPage.PageSlice | src/components/lead-generator/lead-generator-page.tsx:83-85 | For a page p ≥ 1, the shown leads are those from (p−1)·10 up to p·10, at most ten. |
| LeadGeneratorPage.TotalPages | src/components/lead-generator/lead-generator-page.tsx:86 | totalPages is the ceiling of n/10: 0 iff there are no leads, and otherwise (t−1)·10 < n ≤ t·10. |
| LeadGeneratorPage.PagesCoverLeads | src/components/lead-generator/lead-generator-page.tsx:83-93 | Pages 1..totalPages read in order give back exactly the list of leads, and any page past the last is empty. |
| LeadGeneratorPage.PageNumbers | src/components/lead-generator/lead-generator-page.tsx:90-93 | The loop lists the page numbers 1, 2, …, totalPages. |
| LeadGeneratorPage.PreviousPage | src/components/lead-generator/lead-generator-page.tsx:97-98 | Previous gives max(p−1, 1). |
| LeadGeneratorPage.NextPage | src/components/lead-generator/lead-generator-page.tsx:111-112 | Next gives min(p+1, totalPages). |
| LeadGeneratorPage.ButtonsStayInRange | src/components/lead-generator/lead-generator-page.tsx:97-112 | From a page in 1..totalPages both buttons stay in range. Previous on the first page and Next on the last do nothing. |
| LeadGeneratorPage.ShowsPagination | src/components/lead-generator/lead-generator-page.tsx:87 | The pagination shows iff there is more than one page. |
| LeadGeneratorPage.YelpCardsShowNoEmail | src/components/lead-generator/lead-generator-page.tsx:235-240 | A card built from Yelp never shows an email. It shows a phone iff Yelp gave one. |
| LeadGeneratorPage.ShowsEmail | src/components/lead-generator/lead-generator-page.tsx:235-237 | A card shows the email iff it is non-empty and not Contact via Yelp. |
| LeadGeneratorPage.ShowsPhone | src/components/lead-generator/lead-generator-page.tsx:238-240 | A card shows the phone iff it is non-empty and not Not available. |
| LeadGeneratorPage.SelectPageView | src/components/lead-generator/lead-generator-page.tsx:76-82 | A spinner shows iff the tier is loading. The feature shows iff the tier is exactly Expert Freelancer; otherwise the lock message shows. |
| LeadGeneratorPage.TierOf | src/components/lead-generator/lead-generator-page.tsx:20 | The tier is the stored subscription name, or null for an empty one. |
| LeadGeneratorPage.SelectResults | src/components/lead-generator/lead-generator-page.tsx:211-283 | The results area shows, by priority, generating, then the cards of the current page (with pagination iff more than 10 leads), then the error, then the no-leads message for a searched location. |
| LeadGeneratorPage.TipsOnlyWithNoLeadsFound | src/components/lead-generator/lead-generator-page.tsx:265-271 | With no leads, the search tips show iff the no-leads message does. |
| LeadGeneratorPage.ShowsTips | src/components/lead-generator/lead-generator-page.tsx:271 | The tips show iff a location is entered and there is no error. |
| LeadGeneratorPage.WithField | src/components/lead-generator/lead-generator-page.tsx:52-65 | One form field takes the typed value and the others stay. |
| LeadGeneratorPage.Page.SubscriptionLoaded | src/components/lead-generator/lead-generator-page.tsx:16-29 | A successful read sets the tier; a failed read leaves it. Loading ends. |
| LeadGeneratorPage.Page.Next | src/components/lead-generator/lead-generator-page.tsx:111-112 | The page becomes min(p+1, totalPages), and nothing else changes. |
| LeadGeneratorPage.Page.ChangeField | src/components/lead-generator/lead-generator-page.tsx:57-63 | The named form field takes the typed value, and nothing else changes. |
| LeadGeneratorPage.Page.Previous | src/components/lead-generator/lead-generator-page.tsx:97 | The page becomes max(p−1, 1), and nothing else changes. |
| LeadGeneratorPage.Page.GoTo | src/components/lead-generator/lead-generator-page.tsx:105 | A numbered button makes its number the page, and nothing else changes. |
| LeadGeneratorPage.Page.HandleGenerate | src/components/lead-generator/lead-generator-page.tsx:31-33 | The search runs on the form. The hook's leads become the result or empty, and its error becomes the error state of a failed outcome or none. The page goes back to 1. |
| Actions.PasswordsDiffer | src/app/actions.ts:8-13 | The sign-up's mismatch test: a missing password, or a password that differs from the verification field read with `|| ''`. |
| Actions.SignUpErrorMessage | src/app/actions.ts:38-49 | A message mentioning already registered or already exists becomes the fixed existing-account message; any other passes through. |
| Actions.SignUp | src/app/actions.ts:7-78 | A password mismatch is reported before missing fields, and neither reaches the auth service. The service is reached iff both checks pass. Each reply gives its redirect, and a reply with no user gives nothing. |
| Actions.MismatchReportedFirst | src/app/actions.ts:11-27 | A missing password is reported as a mismatch. An empty password with an empty or missing verify field gets the required-fields message. |
| Actions.AccountCreatedOnlyWithUser | src/app/actions.ts:52-69 | The success message is sent iff both checks pass and the service returns a user. |
| Actions.SignUpWhenRedirectThrows | src/app/actions.ts:29-77 | If `encodedRedirect` throws like `redirect`, every outcome from inside the `try` becomes the unexpected-error redirect, a reply with no user still gives nothing, and the two checks before the `try` are unchanged. |
| Actions.ThrownRedirectHidesSuccess | src/app/actions.ts:29-77 | If the redirect throws, no sign-up is ever reported as a success. |
| Actions.SignIn | src/app/actions.ts:80-95 | An error goes back to /sign-in with its message; otherwise the user goes to /dashboard. |
| Actions.ForgotPassword | src/app/actions.ts:97-125 | A missing email is an error without a service call. A failed reset gives its error. Success redirects to the callback URL when given, else shows the check-your-email message. |
| Actions.ResetPassword | src/app/actions.ts:127-161 | Empty fields are checked before the mismatch. The service is called iff both fields are filled and equal. Each outcome goes to the path the source names. |
| Actions.UpdateOnlyWhenConfirmed | src/app/actions.ts:132-152 | A password is updated only to a non-empty value that both fields agree on. |
| Actions.CheckUserSubscription | src/app/actions.ts:169-184 | The check is true iff the query succeeds and exactly one row is the user's with status active. A failed query gives false. |
| Actions.CheckedUserHasAccess | src/app/actions.ts:169-184 | A positive check implies that an active row of the user grants access under the access rule. |
| Actions.NoGracePeriod | src/app/actions.ts:169-184 | A canceled subscription still inside its period grants access under the access rule but fails this check. |
| Actions.DuplicateActiveRowsFail | src/app/actions.ts:172-178 | For any rows, two different active rows of the user make the single-row query fail, so the check is false. |
| Common.FilterSingleton | src/app/actions.ts:172-178 | A filter keeps exactly one element iff exactly one element, at one index, satisfies the condition. |
| Middleware.SetCookies | supabase/middleware.ts:26-35 | After the cookies are set, the response holds exactly the old names and the names set. |
| Middleware.SetRequestCookies | supabase/middleware.ts:28 | After the cookies are set on the request, its store holds exactly the old names and the names set. |
| Middleware.AsWrittenResponse | supabase/middleware.ts:26-35 | As written, no cookies leave the response as it was, and otherwise it holds only the last cookie's name. |
| Middleware.LastWriteWins | supabase/middleware.ts:26-35 | The cookie set last under a name is the one the response keeps. |
| Middleware.CookieLossExample | supabase/middleware.ts:26-35 | For two cookies with different names, the loop as written drops the first from the response, and the corrected loop keeps both. |
| Middleware.Session.SetAllAsWritten | supabase/middleware.ts:26-35 | Every cookie goes onto the request. The response holds only the last cookie. |
| Middleware.Session.SetAll | supabase/middleware.ts:26-35 | Every cookie goes onto the request, and the response holds every cookie, set in order. |
| Middleware.Decide | supabase/middleware.ts:46-55 | A /dashboard path without a user redirects to /sign-in. /sign-in or /sign-up with a user redirects to /dashboard. The request passes iff neither rule applies. |
| Middleware.NoRedirectLoop | supabase/middleware.ts:46-55 | Following a redirect never leads to another redirect. |
| Middleware.UpdateSession | supabase/middleware.ts:4-67 | A failure to create the client passes the request on with no cookies. Otherwise the guard's redirect is returned, or the request passes with the response the `setAll` loop leaves as written: no cookies when none were refreshed, else only the last refreshed cookie. |
| Middleware.UpdateSessionCorrected | supabase/middleware.ts:4-67 | With the corrected `setAll`: the same failure and redirect cases, and a request that passes carries every refreshed cookie, the last one under each name. |
| TimeTracking.ClockFields | src/components/time-tracking/time-tracking-page.tsx:47-49 | Minutes and seconds are below 60, and h·3600 + m·60 + s = t. |
| TimeTracking.ClockField | src/components/time-tracking/time-tracking-page.tsx:47-49 | Each field has at least two digits, and exactly two below 100. |
| TimeTracking.ClockFieldValue | src/components/time-tracking/time-tracking-page.tsx:47-49 | A two-digit field reads back as its number. |
| TimeTracking.FormatClockRoundTrip | src/components/time-tracking/time-tracking-page.tsx:47-49 | Below 100 hours the display is `HH:MM:SS`, and reading its fields back gives the time. |
| TimeTracking.ZeroClock | src/components/time-tracking/time-tracking-page.tsx:47-49 | A fresh timer reads 00:00:00. |
| TimeTracking.FormatClock | src/components/time-tracking/time-tracking-page.tsx:47-49 | The display is the hours, minutes and seconds of `ClockFields`, each padded, joined with colons. It is at least 8 characters long. |
| TimeTracking.Timer.ShowsStart | src/components/time-tracking/time-tracking-page.tsx:53-63 | The Start button shows iff the timer is not tracking; otherwise the Pause button shows. |
| TimeTracking.Timer.Start | src/components/time-tracking/time-tracking-page.tsx:15-18 | Tracking starts and the time is unchanged. The button then shows Pause. |
| TimeTracking.Timer.Pause | src/components/time-tracking/time-tracking-page.tsx:20-23 | Tracking stops and the time is unchanged. The button then shows Start. |
| TimeTracking.Timer.Stop | src/components/time-tracking/time-tracking-page.tsx:25-29 | Tracking stops, the time goes back to 0, and it never increases. |
| InvoicePdf.DisplayName | src/hooks/use-invoice-pdf.ts:29 | The name is the full name, else the email's text before the first `@` when that is non-empty, else Your Company. It is never empty. |
| InvoicePdf.InfoFor | src/hooks/use-invoice-pdf.ts:28-32 | The email falls back to your@email.com, and the address is always Your Business Address. |
| InvoicePdf.EmptyLocalPart | src/hooks/use-invoice-pdf.ts:29 | An email with an empty local part gives Your Company. |
| InvoicePdf.Hook.FetchUserInfo | src/hooks/use-invoice-pdf.ts:21-38 | A signed-in user sets the details. No user, or a failed read, leaves them as they were. Loading is false afterwards. |
| GetPlans.GetPlanName | supabase/functions/supabase-functions-get-plans/index.ts:20-28 | The three product ids map to their tier names, and every other key gives Unknown Plan. |
| GetPlans.OnePopularPlan | supabase/functions/supabase-functions-get-plans/index.ts:31-34 | Exactly one price id is popular. |
| GetPlans.IsPopularPlan | supabase/functions/supabase-functions-get-plans/index.ts:31-34 | A price is popular iff its id is the one literal. |
| GetPlans.ToPlan | supabase/functions/supabase-functions-get-plans/index.ts:59-69 | A plan keeps the price's id, product, amount, interval and currency, with the popular flag of its id. |
| GetPlans.FindProduct | supabase/functions/supabase-functions-get-plans/index.ts:56 | A product found has the id and is in the list. None is found iff no listed product has the id. |
| GetPlans.TransformPlans | supabase/functions/supabase-functions-get-plans/index.ts:55-70 | As written, there is one plan per price, in price order, with its id, product and popular flag. The name is the product's name, else getPlanName of the price id. |
| GetPlans.FallbackNeverNamesAPrice | supabase/functions/supabase-functions-get-plans/index.ts:55-61 | As written, a `price_` id whose product is not listed is always named Unknown Plan. |
| GetPlans.UnknownPlanExample | supabase/functions/supabase-functions-get-plans/index.ts:55-61 | The New Freelancer price with its product unlisted is named Unknown Plan as written. |
| GetPlans.TransformPlansByProduct | supabase/functions/supabase-functions-get-plans/index.ts:55-70 | Corrected: there is one plan per price, in order, with the fallback keyed by the price's product. |
| GetPlans.CorrectedFallbackNamesKnownProducts | supabase/functions/supabase-functions-get-plans/index.ts:20-28 | With the correction, a price of a known product is never Unknown Plan, and a listed product's name still wins. |
| GetPlans.HandleGetPlans | supabase/functions/supabase-functions-get-plans/index.ts:36-89 | OPTIONS is answered before any listing. A failed listing gives 400 with its message. Otherwise the response is one plan per price, in order, each joined as written (name fallback looked up by the price id). |
| GetPlans.HandleGetPlansCorrected | supabase/functions/supabase-functions-get-plans/index.ts:36-89 | The same handler with the corrected join: one plan per price, with the name fallback looked up by the price's product. |
| CreateCheckout.CheckoutParamsFor | supabase/functions/create-checkout/index.ts:28-43 | There is one line item with quantity 1, in subscription mode. The success and cancel URLs extend the return URL, and the user id and customer email are passed on. |
| CreateCheckout.Handle | supabase/functions/create-checkout/index.ts:15-83 | OPTIONS gives a preflight response, and a bad body gives 400. A checkout needs price, user and return URL, and a portal needs customer and return URL. Each answers with Stripe's session or its error. Any other action is invalid. |
| CreateCheckout.CallOnlyWhenValid | supabase/functions/create-checkout/index.ts:20-83 | Stripe is called only for a validated action, and a 200 answer always comes from a Stripe call. |
| CreateCheckout.UrlsExtendReturnUrl | supabase/functions/create-checkout/index.ts:37-38 | Both redirect URLs start with the return URL and `?`, and the success and cancel URLs always differ, so the two exits can be told apart. |
| CreateCheckout.SuccessUrlDeterminesReturnUrl | supabase/functions/create-checkout/index.ts:37 | Two checkouts with the same success URL were built from the same return URL. |

## Left out

- I/O is not modelled: Supabase queries and auth calls, Stripe SDK calls, the `fetch`/axios requests to Yelp and `Deno.env`/`process.env`. Their results are inputs, and the model records which call a handler would make.
- `Date.now()` and `new Date().toISOString()` are parameters (`now`, `stamp`).
- Floating point is not modelled. Amounts are Dafny `real`, and nothing is claimed about IEEE rounding. `parseFloat` is an `Option<real>` input where `None` stands for `NaN`.
- `toFixed`, `formatCurrency`, `toLocaleDateString`, date-fns formatting, and the Yelp miles-to-metres factor with its rounding clamp are display or I/O glue and are not modelled.
- React Query is not modelled: caching, invalidation, refetch intervals and rollback on error. Only the cache transforms themselves are.
- Concurrency is not modelled: `Promise.all`, optimistic-update races, and the non-atomic read-then-write of `invoice_count`. The count write is one effect.
- JSX layout, CSS and the PDF render trees are not modelled.
- `...price` in the plan list copies every Stripe field. The model keeps only the named fields.
- `encodedRedirect` comes from `src/utils/utils.ts`, which is not part of this model. A redirect with a message is a value with a kind, a path and a message.
- Actions.SignUp: assumes that `encodedRedirect` returns its response. If it throws the way `redirect` from next/navigation does, the `catch` at src/app/actions.ts:70-76 replaces every redirect raised inside the `try` of lines 29-77 by the unexpected-error redirect. Actions.SignUpWhenRedirectThrows models that reading.
- Actions.AccountCreatedOnlyWithUser: holds under the same assumption. If the redirect throws, no success message is ever shown (Actions.ThrownRedirectHidesSuccess).
- InvoiceHooks.ApplyPatch: a patch field is either absent or carries a value. A spread of a property that is present but explicitly `undefined`, which overwrites the cached field with `undefined`, cannot be expressed, and neither can a patch that sets `notes` to null.
- Cookie attributes (path, expiry, flags) are an opaque string passed through unchanged.
- GetPlans.GetPlanName: the source looks the key up in a plain object, so a key such as `constructor` would find an inherited, truthy function instead of giving Unknown Plan. The model treats the table as a map of its three keys only; Stripe ids never take such names.
- ContractsPage.PageState.OpenCreate: the page's views are not modelled over time. The flag set on the empty card stays set, so a later render of the list view, after contracts arrive from elsewhere, would show the dialog; the model does not state that sequence.
- Pricing.OfferedPlans: takes the list the invoke returned. The null `plans` of a failed invoke, which makes `filter` throw, is the error case of Pricing.PlansOnPage.
- Lengths are counted in Dafny characters. JavaScript counts UTF-16 code units in `substring(0, 200)`, `slice(0, 8)` and the sanitiser's character class, so text outside the Basic Multilingual Plane would be cut differently.
- `Common.Trim` uses the whitespace set of the ECMAScript standard and has no Unicode tables beyond it.
- `signOutAction` is a single auth call followed by a redirect and is not modelled. The unused `full_name` field of the sign-up form is not modelled either.
- The timer never advances in the source: no code increments `currentTime`, so it is always 0. The model has no tick operation and keeps `currentTime` for the stop reset only.
- The CORS headers and the `console.log` statements of the edge functions are not modelled.
- Middleware.Decide: the two redirect rules are mutually exclusive because they need opposite signed-in states, so no lemma states that separately.

## Findings

| source | as written | input that shows it | evidently intended | confidence | as-written member | corrected member |
|---|---|---|---|---|---|---|
| supabase/functions/supabase-functions-get-plans/index.ts:55-61 | The fallback name is `getPlanName(price.id)`, but the lookup table is keyed by product ids (`prod_…`). No price id can match, so the fallback always gives Unknown Plan. | The price `price_1RTCfJDBPJVWy5MhqB5gMwWZ` of product `prod_SNyclMOBTiNxdL`, with the product missing from the listing | Look up the price's product id (`price.product`), giving New Freelancer | not executed | GetPlans.FallbackNeverNamesAPrice | GetPlans.TransformPlansByProduct |
| supabase/middleware.ts:26-35 | Inside the `forEach`, `setAll` rebuilds the response with `NextResponse.next` before setting each cookie, so only the last cookie reaches the response. | Two cookies with different names, such as the two chunks of a split auth token | Rebuild the response once, then set every cookie on it | not executed | Middleware.CookieLossExample | Middleware.Session.SetAll |
| src/app/dashboard/page.tsx:25 | The unpaid figure counts invoices whose status is `unpaid`. The application writes only `draft` (create-invoice-dialog.tsx:63), the `draft` or `paid` of the status select (edit-invoice-dialog.tsx:52, offering 148-149), `paid` (invoices-page.tsx:78) and `sent` (use-invoices.ts:364), so for its own data the figure is always 0. | One invoice with status `sent`, not yet paid | Count the invoices that are not paid | not executed | Dashboard.SentInvoiceNotCounted | Dashboard.OutstandingCount |
| src/components/contracts/contracts-page.tsx:48-66 | The only Create Contract button is on the empty card, which returns early without `<CreateContractDialog>`. The dialog is mounted only after the list of cards (line 152), which has no create button, so pressing the button sets the flag and nothing appears. | A signed-in user with no contracts who may create one presses Create Contract | Mount the create dialog with the empty card too | not executed | ContractsPage.CreateButtonShowsNothing | ContractsPage.CorrectedCreateButtonShowsDialog |
