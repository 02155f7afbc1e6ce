# Urdigix agency site — a verified model of its back office and rule engines

This project models, in Dafny, the parts of the Urdigix agency website that
decide something: the billing back office and a set of small rule engines
around it. Each core source file becomes one module, named after the file
it models.

- **Billing records** (`BillingTypes`). Quotations, invoices and their line
  items. The status unions, the badge tables, and the defaults a new
  document and a new line start from.
- **The billing editor** (`BillingForm`, `Invoices`,
  `Quotations`). `calculateTotals` runs its chain in this order:
  subtotal, discount, taxable amount, GST (a GST percentage of 0 is read as
  18), grand total, and for invoices the balance due. The item-list
  handlers keep `amount = quantity × rate` and never empty the list.
  Payments are recorded on the in-memory list, with the balance clamped at
  zero and the status moved to paid or pending. Search, the status filter
  and the stats cards are folds over the list. A quotation's `valid_until`
  is its date plus its validity days. The screens are classes whose fields
  are the component's state.
- **The billing service** (`BillingService`). The zod schemas are written
  out as predicates, along with the UUID guard. The store is a class
  holding a map of headers and a map from a parent id to its item
  sequence. It supports create (validate, insert the header, then the
  items numbered by position), update (header, then replace the items only
  when a non-empty list is given) and delete with cascade.
- **PDF generation** (`PdfGenerator`). The jsPDF document is an
  append-only list of drawing operations, each tagged with its page. The
  model follows the vertical cursor, the page-break rule inside the item
  loop, the total lines shown for the stored amounts (printed as stored,
  never recomputed) and the file name.
- **Admin login** (`RateLimiter`, `Auth`). The client-side limiter is a
  time-driven state machine with a sliding window, progressive lockouts and
  expiry. `formatLockoutTime` produces the lockout text. The page's submit
  flow checks, in order: locked, then field validation, then sign-in, then
  recording the attempt.
- **The contact-form edge function** (`ContactForm`). A fixed-window
  counter per IP held in a map. A validator that collects every error. A
  sanitiser that trims, strips `<…>` spans and lower-cases the email. The
  handler's check order.
- **The start-project wizard** (`StartProject`). Steps 1 → 2 → 3, or a
  single "submitted" flag in direct-service mode. The service toggle, and
  the name and email gates on submit.
- **Page tracking and analytics** (`PageTracking`, `AdminAnalytics`).
  User-agent parsing, the visitor id kept in local storage, and the view
  aggregation: total views, distinct visitors, seven daily buckets and the
  top five pages.
- **The content manager** (`BlogManager`, `PortfolioManager`,
  `ServicesManager`, with `Slug` and `Publishing` shared between them).
  `generateSlug`, which always yields a slug and is idempotent. The record
  each form saves. The list splitting and joining, with their round trips.
  The status and active toggles, and `display_order`.

Shared helpers: `Wrappers` (Option and Result), `Text` (trimming, ASCII
lower-casing, splitting, joining, substring search) and `Toasts`.

Money is `real`. Dates are integer day numbers, and times are integer
milliseconds. Clocks, fresh ids, store outcomes, the confirmation dialog's
answer and foreign predicates (zod's email check, URL parsing, the "MMM d"
day key) are all parameters of the operations that use them.

## Model

| member | source | states |
|---|---|---|
| BillingTypes.ParseQuotationStatus | src/types/billing.ts:68 | a `status` string is read as a quotation status exactly when it is one of the five names of the union, and the status read back has that name |
| BillingTypes.ParseInvoiceStatus | src/types/billing.ts:127 | a `status` string is read as an invoice status exactly when it is one of the six names of the union, and the status read back has that name |
| BillingTypes.QuotationStatusRoundTrip | src/types/billing.ts:68 | reading a quotation status's name gives the status back, and no two statuses share a name |
| BillingTypes.InvoiceStatusRoundTrip | src/types/billing.ts:127 | reading an invoice status's name gives the status back, and no two statuses share a name |
| BillingTypes.QuotationLabelsCapitalised | src/types/billing.ts:140-146 | every quotation status has a badge entry whose label is the status name with its first letter upper-cased |
| BillingTypes.InvoiceLabelsCapitalised | src/types/billing.ts:148-155 | every invoice status has a badge entry whose label is the status name with its first letter upper-cased |
| BillingTypes.QuotationStatusConfigTotal | src/types/billing.ts:140-146 | the quotation badge table is keyed by exactly the five status names, so a lookup by status never misses |
| BillingTypes.InvoiceStatusConfigTotal | src/types/billing.ts:148-155 | the invoice badge table is keyed by exactly the six status names, so a lookup by status never misses |
| BillingTypes.QuotationStatusStyle | src/types/billing.ts:140-146 | the badge style looked up for a quotation status carries the capitalised status as its label |
| BillingTypes.InvoiceStatusStyle | src/types/billing.ts:148-155 | the badge style looked up for an invoice status carries the capitalised status as its label |
| BillingTypes.DefaultItemConsistent | src/types/billing.ts:228-235 | the default line has quantity 1 and satisfies amount = quantity × rate |
| BillingTypes.DefaultQuotation | src/types/billing.ts:177-199 | the default quotation is a draft of today with 15 days' validity, no valid-until date, no lines, 18% GST, a percentage discount and a consistent all-zero pricing |
| BillingTypes.DefaultInvoice | src/types/billing.ts:202-225 | the default invoice is a draft of today with no due date, no lines, 18% GST, nothing paid and a consistent all-zero pricing and balance |
| BillingForm.SubtotalAppend | src/components/admin/InvoicesManager.tsx:105 | the subtotal (the `reduce` over the line amounts) of two lists joined is the sum of their subtotals |
| BillingForm.SubtotalNonNegative | src/components/admin/InvoicesManager.tsx:105 | lines with non-negative amounts have a non-negative subtotal |
| BillingForm.TotalsConsistent | src/components/admin/InvoicesManager.tsx:104-130 | the computed pricing always satisfies taxable = subtotal − discount and grand total = taxable + GST, with the subtotal the sum of the lines |
| BillingForm.TotalsWithoutDiscount | src/components/admin/InvoicesManager.tsx:107-118 | with the discount off or its value 0, nothing is discounted and the grand total is the subtotal, times (1 + rate/100) when GST is on |
| BillingForm.TotalsWithPercentageDiscount | src/components/admin/InvoicesManager.tsx:107-118 | with both switches on, a percentage discount v and GST rate g give grand total = subtotal × (1 − v/100) × (1 + g/100) |
| BillingForm.ZeroGstChargesEighteen | src/components/admin/InvoicesManager.tsx:117 | a GST percentage of 0 is charged as 18 (`gst_percentage \|\| 18`) |
| BillingForm.GstOffChargesNothing | src/components/admin/InvoicesManager.tsx:117-118 | with GST off no tax is charged and the grand total is the taxable amount |
| BillingForm.TotalsBounded | src/components/admin/InvoicesManager.tsx:104-118 | for non-negative lines, a percentage discount between 0 and 100 and a non-negative rate, the grand total lies between 0 and the subtotal with GST |
| BillingForm.FixedDiscountNotClamped | src/components/admin/InvoicesManager.tsx:111-116 | a fixed discount above the subtotal is not clamped: 150 off a 100 line gives taxable −50 and grand total −59 |
| BillingForm.WorkedExample | src/components/admin/InvoicesManager.tsx:104-118 | two units at 2500 with 18% GST and no discount total 5000 + 900 = 5900 |
| BillingForm.FormBalanceNotClamped | src/components/admin/InvoicesManager.tsx:119 | the form's balance due is not clamped: paying more than the grand total makes it negative |
| BillingForm.AddItemFacts | src/components/admin/InvoicesManager.tsx:136-138 | adding a line keeps every existing line, appends a default line numbered with the old length whose amount is quantity × rate, and leaves the subtotal unchanged |
| BillingForm.RemoveItemFacts | src/components/admin/InvoicesManager.tsx:140-144 | removal never empties the list; it drops exactly one line precisely when there are several and the index is in range, and changes nothing otherwise |
| BillingForm.RemoveItemSubtotal | src/components/admin/InvoicesManager.tsx:140-144 | removing line i lowers the subtotal by exactly that line's amount |
| BillingForm.ChangeItemFacts | src/components/admin/InvoicesManager.tsx:146-157 | an edit rewrites only line i, and the subtotal moves by exactly the change in that line's amount |
| BillingForm.ApplyChangeAmount | src/components/admin/InvoicesManager.tsx:146-157 | a quantity edit, or a rate edit on a line with a quantity, leaves amount = quantity × rate; a rate edit on a zero quantity prices one unit; a description edit keeps the amount |
| BillingForm.SelectPresetFacts | src/components/admin/InvoicesManager.tsx:159-167 | picking a preset sets the line's name and description from the preset and changes neither the line's amount nor the subtotal |
| BillingService.FindInvalidItem | src/services/billingService.ts:29-82 | the loop over the lines finds nothing exactly when every line passes the item schema; otherwise it returns the first line the schema rejects |
| BillingService.UuidIgnoresCase | src/services/billingService.ts:116 | the id guard (the pattern with the `i` flag) accepts an id exactly when it accepts the id's lower-case form |
| BillingService.NumberedItems | src/services/billingService.ts:98-103 | the lines sent on create keep their count and order, and each is the given line with `sort_order` equal to its position |
| BillingService.ItemsForUpdate | src/services/billingService.ts:137-145 | the lines sent on update keep count and order: the five columns are copied, an empty or missing description is sent as `''`, and `sort_order` is the position |
| BillingService.ItemsForUpdateIdempotent | src/services/billingService.ts:137-145 | mapping the lines of an update a second time leaves them as they were |
| BillingService.ItemsForUpdateMatchesCreate | src/services/billingService.ts:98-145 | for lines that pass the item schema, update stores exactly the lines that create would store |
| BillingService.StatusPatchOnlyStatus | src/services/billingService.ts:121-123 | a `{ status }` update changes only the status of the row with that id; every other row and key stays |
| BillingService.BillingStore.constructor | src/services/billingService.ts:46 | the store starts with no documents, no lines and no settings, and keeps the foreign-key invariant |
| BillingService.BillingStore.CreateQuotation | src/services/billingService.ts:62-112 | the client check then the line checks throw before any write; a failed header insert writes nothing; a failed line insert leaves the header but no lines; on success the header is stored under the new id and the lines numbered by position |
| BillingService.BillingStore.UpdateQuotation | src/services/billingService.ts:114-152 | a malformed id fails before any write, with nothing else validated; the patch updates the matching row, if any; an empty line list keeps the stored lines; otherwise the old lines are deleted, and a failed re-insert leaves none; the result and the new lines are `UpdateOutcome` and `LinesAfterUpdate` |
| BillingService.BillingStore.DeleteQuotation | src/services/billingService.ts:154-166 | a malformed id fails; otherwise the header and, by cascade, its lines are removed |
| BillingService.BillingStore.CreateInvoice | src/services/billingService.ts:191-239 | the same steps and failure points as quotation create, on the invoice tables |
| BillingService.BillingStore.UpdateInvoice | src/services/billingService.ts:241-276 | the same steps and failure points as quotation update, on the invoice tables |
| BillingService.UpdateOutcome | src/services/billingService.ts:114-152 | an update succeeds exactly when the id is a UUID, the header write succeeds and, for a non-empty line list, the delete and the insert succeed under a stored header; a malformed id is the only `InvalidId` failure, every other failure a store error |
| BillingService.LinesAfterUpdate | src/services/billingService.ts:127-151 | an update changes the lines of its own header only; every other parent keeps its lines |
| BillingService.UpdateOutcomeLines | src/services/billingService.ts:127-151 | after a successful update the header's lines are exactly the list sent, in order and numbered by position, or untouched when the list was empty; after a failed one they are as before or gone |
| BillingService.UpdateTwiceSameLines | src/services/billingService.ts:127-151 | repeating a successful update leaves the same lines |
| BillingService.BillingStore.DeleteInvoice | src/services/billingService.ts:278-289 | a malformed id fails; otherwise the invoice and its lines are removed |
| BillingService.BillingStore.GetBusinessSettings | src/services/billingService.ts:302-310 | a store error is raised; one settings row is returned; none or several (PGRST116, swallowed) give null |
| BillingService.BillingStore.UpdateBusinessSettings | src/services/billingService.ts:312-325 | the upsert is keyed by the payload's own id (or a new one when it has none), stamped with the current time, and returns the row it stored |
| Invoices.FilterInvoicesMembers | src/components/admin/InvoicesManager.tsx:94-101 | an invoice is listed exactly when it is in the list and its client name, business name or number contains the query (ignoring case) and its status matches the filter or the filter is `all`; the list never grows |
| Invoices.FilterInvoicesAll | src/components/admin/InvoicesManager.tsx:94-101 | an empty query with the `all` filter lists every invoice, in order |
| Invoices.StatusCountsPartition | src/components/admin/InvoicesManager.tsx:285-292 | the six per-status counts add up to the number of invoices, so the pending, paid and overdue cards together never exceed the total card |
| Invoices.StatsEmptyStatus | src/components/admin/InvoicesManager.tsx:290-291 | with no paid invoices the revenue is 0, and with no pending ones the pending amount is 0 |
| Invoices.RecordPaymentFacts | src/components/admin/InvoicesManager.tsx:259-276 | a recorded payment leaves every other invoice alone; on the matching one the amount paid grows by the payment, the balance is the remainder clamped at 0, the status is paid exactly when nothing remains (else pending), the payment time is set only when paid, and pricing and client are untouched |
| Invoices.FullPaymentSettles | src/components/admin/InvoicesManager.tsx:253-276 | paying the proposed balance on a consistent invoice marks it paid with nothing owed, everything paid and the payment time now |
| Invoices.PartPaymentConsistent | src/components/admin/InvoicesManager.tsx:259-276 | a payment short of the grand total leaves the invoice pending with balance = grand total − amount paid |
| Invoices.WithoutIdMembers | src/components/admin/InvoicesManager.tsx:223 | deleting from the list removes exactly the invoices with that id and keeps every other one |
| Invoices.WithStatus | src/components/admin/InvoicesManager.tsx:233-235 | the status change keeps the list's length and order, and gives the new status to exactly the invoices with that id |
| Invoices.InvoicesManager.constructor | src/components/admin/InvoicesManager.tsx:57-73 | the screen starts with no invoices, no search, the `all` filter, closed dialogs, the default invoice with one default line, GST on and the discount off |
| Invoices.InvoicesManager.RecalculateTotals | src/components/admin/InvoicesManager.tsx:104-134 | the form takes the freshly computed totals and balance and nothing else, so its pricing chain and balance are consistent and its subtotal is the sum of the lines |
| Invoices.InvoicesManager.HandleAddItem | src/components/admin/InvoicesManager.tsx:136-138 | the lines become the old lines plus one default line |
| Invoices.InvoicesManager.HandleRemoveItem | src/components/admin/InvoicesManager.tsx:140-144 | the lines lose line i only when there are several, so there is always at least one |
| Invoices.InvoicesManager.HandleItemChange | src/components/admin/InvoicesManager.tsx:146-157 | only line i is edited, with its amount recomputed on a quantity or rate edit |
| Invoices.InvoicesManager.HandleSelectPreset | src/components/admin/InvoicesManager.tsx:159-167 | only line i takes the preset's name and description |
| Invoices.InvoicesManager.HandleNewInvoice | src/components/admin/InvoicesManager.tsx:169-187 | the editing invoice is cleared; when numbering fails nothing else changes; otherwise the form is the default invoice with the new number and a due date 15 days on, with one default line, GST on, the discount off and the form open |
| Invoices.InvoicesManager.HandleEditInvoice | src/components/admin/InvoicesManager.tsx:189-196 | the form holds the invoice and is open; its lines are the invoice's, or one default line when it has none; GST is on exactly when some was charged and the discount exactly when some was given |
| Invoices.InvoicesManager.HandleSaveInvoice | src/components/admin/InvoicesManager.tsx:198-217 | an invoice with an id is updated: the header patched when the id is well formed and the header write succeeds, the result and the stored lines those of the store's update; any other is created under the store's new id when the client and lines validate, its lines stored numbered by position unless their insert fails; the form closes exactly when the save succeeded; the quotation tables and the settings never change |
| Invoices.InvoicesManager.HandleDeleteInvoice | src/components/admin/InvoicesManager.tsx:219-228 | without confirmation nothing happens; a confirmed delete of a well-formed id removes exactly that invoice and its lines from the store, unless the store fails; a malformed id or a store error leaves the store as it was; the list drops the invoice only once the store has deleted it; the quotation tables and the settings never change |
| Invoices.InvoicesManager.HandleStatusChange | src/components/admin/InvoicesManager.tsx:230-240 | a status-only update that never touches the lines; the list takes the new status only when the store accepted it; the quotation tables and the settings never change |
| Invoices.InvoicesManager.HandleRecordPayment | src/components/admin/InvoicesManager.tsx:253-257 | the payment dialog opens on the invoice, proposing its whole balance due |
| Invoices.InvoicesManager.SetPaymentAmount | src/components/admin/InvoicesManager.tsx:983 | the dialog's amount becomes the entered value |
| Invoices.InvoicesManager.HandleSavePayment | src/components/admin/InvoicesManager.tsx:259-283 | with no selected invoice nothing happens; otherwise the payment is recorded on the in-memory list only and the dialog closes |
| Quotations.FilterQuotationsMembers | src/components/admin/QuotationsManager.tsx:91-98 | a quotation is listed exactly when it is in the list and its client name, business name or number contains the query (ignoring case) and its status matches the filter or the filter is `all`; the list never grows |
| Quotations.FilterQuotationsAll | src/components/admin/QuotationsManager.tsx:91-98 | an empty query with the `all` filter lists every quotation, in order |
| Quotations.StatusCountsPartition | src/components/admin/QuotationsManager.tsx:268-274 | the five per-status counts add up to the number of quotations, so the draft, sent and accepted cards together never exceed the total card |
| Quotations.TotalValueAppend | src/components/admin/QuotationsManager.tsx:273 | the total value (the `reduce` over all grand totals) of two lists joined is the sum of their values |
| Quotations.StatusChangeKeepsValue | src/components/admin/QuotationsManager.tsx:241-273 | a status change keeps the list's length and never alters the total value card |
| Quotations.WithValidUntil | src/components/admin/QuotationsManager.tsx:131-140 | when a date and a non-zero validity are set, `valid_until` becomes the date plus the validity in days; otherwise, and in every other field, the quotation is unchanged |
| Quotations.WithValidUntilIdempotent | src/components/admin/QuotationsManager.tsx:131-140 | running the validity effect again changes nothing |
| Quotations.WithoutIdMembers | src/components/admin/QuotationsManager.tsx:234 | deleting from the list removes exactly the quotations with that id and keeps every other one |
| Quotations.WithStatus | src/components/admin/QuotationsManager.tsx:244-246 | the status change keeps the list's length and order, and gives the new status to exactly the quotations with that id |
| Quotations.QuotationsManager.constructor | src/components/admin/QuotationsManager.tsx:57-70 | the screen starts with no quotations, no search, the `all` filter, closed dialogs, the default quotation with one default line, GST on and the discount off |
| Quotations.QuotationsManager.RecalculateTotals | src/components/admin/QuotationsManager.tsx:101-129 | the form takes the freshly computed totals and nothing else, so its pricing chain is consistent and its subtotal is the sum of the lines |
| Quotations.QuotationsManager.UpdateValidUntil | src/components/admin/QuotationsManager.tsx:131-140 | the form becomes the quotation with its validity date recomputed |
| Quotations.QuotationsManager.HandleAddItem | src/components/admin/QuotationsManager.tsx:142-144 | the lines become the old lines plus one default line |
| Quotations.QuotationsManager.HandleRemoveItem | src/components/admin/QuotationsManager.tsx:146-150 | the lines lose line i only when there are several, so there is always at least one |
| Quotations.QuotationsManager.HandleItemChange | src/components/admin/QuotationsManager.tsx:152-164 | only line i is edited, with its amount recomputed on a quantity or rate edit |
| Quotations.QuotationsManager.HandleSelectPreset | src/components/admin/QuotationsManager.tsx:166-174 | only line i takes the preset's name and description |
| Quotations.QuotationsManager.HandleNewQuotation | src/components/admin/QuotationsManager.tsx:176-192 | the editing quotation is cleared; when numbering fails nothing else changes; otherwise the form is the default quotation with the new number, one default line, GST on, the discount off and the form open |
| Quotations.QuotationsManager.HandleEditQuotation | src/components/admin/QuotationsManager.tsx:194-201 | the form holds the quotation and is open; its lines are the quotation's, or one default line when it has none; GST is on exactly when some was charged and the discount exactly when some was given |
| Quotations.QuotationsManager.HandleSaveQuotation | src/components/admin/QuotationsManager.tsx:203-228 | a quotation with an id is updated: the header patched when the id is well formed and the header write succeeds, the result and the stored lines those of the store's update; any other is created under the store's new id when the client and lines validate, its lines stored numbered by position unless their insert fails; the form closes exactly when the save succeeded; the invoice tables and the settings never change |
| Quotations.QuotationsManager.HandleDeleteQuotation | src/components/admin/QuotationsManager.tsx:230-239 | without confirmation nothing happens; a confirmed delete of a well-formed id removes exactly that quotation and its lines from the store, unless the store fails; a malformed id or a store error leaves the store as it was; the list drops the quotation only once the store has deleted it; the invoice tables and the settings never change |
| Quotations.QuotationsManager.HandleStatusChange | src/components/admin/QuotationsManager.tsx:241-254 | a status-only update that never touches the lines; the list takes the new status only when the store accepted it; the invoice tables and the settings never change |
| Quotations.QuotationsManager.HandlePreview | src/components/admin/QuotationsManager.tsx:256-259 | the preview opens on the quotation |
| PdfGenerator.ShowsIff | src/utils/pdfGenerator.ts:50-79 | the scan "some text call printed this piece" agrees with plain membership: some drawn text operation prints it |
| PdfGenerator.Numbering | src/utils/pdfGenerator.ts:235 | the row numbers from `from` on: `count` of them, the k-th being from + k + 1 |
| PdfGenerator.RowOpsFacts | src/utils/pdfGenerator.ts:233-262 | a row prints its own number and no other, draws nothing on another page, and prints its number at the row's baseline |
| PdfGenerator.RowHeadNumbers | src/utils/pdfGenerator.ts:226-263 | one iteration of the rows loop prints exactly one row number, its own |
| PdfGenerator.RowHeadPlacement | src/utils/pdfGenerator.ts:228-231 | one iteration breaks the page at most once, draws everything on the page it ends on, and starts its row no lower than 80 above the page bottom |
| PdfGenerator.RowsNumbers | src/utils/pdfGenerator.ts:226-263 | the rows loop from index i prints exactly one row per remaining line, in order, numbered index + 1 |
| PdfGenerator.RowsPlacement | src/utils/pdfGenerator.ts:226-263 | every row starts no lower than 80 above the bottom of its page, pages only move forward, and there is at most one page break per row |
| PdfGenerator.RowBaseline | src/utils/pdfGenerator.ts:233-257 | number, quantity, rate and amount share the row's baseline, the description (when present and non-empty) sits 4 below, and a row takes 12 with a description and 8 without |
| PdfGenerator.TotalsDiscountLine | src/utils/pdfGenerator.ts:277-285 | the totals block shows the discount line exactly when the stored discount is positive |
| PdfGenerator.TotalsGstLine | src/utils/pdfGenerator.ts:288-292 | the totals block shows the GST line, with its percentage, exactly when the stored GST is positive |
| PdfGenerator.TotalsAmounts | src/utils/pdfGenerator.ts:271-307 | the totals print the stored subtotal and grand total, and no amount other than the four stored ones: nothing is recomputed |
| PdfGenerator.PaymentLines | src/utils/pdfGenerator.ts:632-650 | the invoice's status is printed upper-cased, and the amount-paid and balance-due lines appear exactly when something was paid |
| PdfGenerator.TermsLines | src/utils/pdfGenerator.ts:318-330 | the payment-terms and notes blocks appear exactly when their texts are non-empty |
| PdfGenerator.BlockFacts | src/utils/pdfGenerator.ts:318-323 | a terms or notes block prints its heading, and only its heading, exactly when its body is non-empty |
| PdfGenerator.TermsBreak | src/utils/pdfGenerator.ts:313-316 | with less than 60 left above the page bottom, terms and notes start a new page at the margin; otherwise no page is added |
| PdfGenerator.ClientFacts | src/utils/pdfGenerator.ts:145-192 | the client block prints only the BILL TO caption besides the client's own fields, and no row number |
| PdfGenerator.HeaderFacts | src/utils/pdfGenerator.ts:83-142 | the header prints only the title and tagline captions, and no row number |
| PdfGenerator.TableHeaderFacts | src/utils/pdfGenerator.ts:204-223 | the table header prints only the five column headings, and no row number |
| PdfGenerator.FrontCaptions | src/utils/pdfGenerator.ts:81-223 | everything drawn before the rows prints only the header, BILL TO and column captions, and no row number |
| PdfGenerator.RowsCaptions | src/utils/pdfGenerator.ts:226-263 | the rows print no caption at all |
| PdfGenerator.TotalsFacts | src/utils/pdfGenerator.ts:267-309 | the totals print only the subtotal, discount and grand-total captions (the GST caption carries its percentage), and no row number |
| PdfGenerator.FooterFacts | src/utils/pdfGenerator.ts:332-356 | the footer prints only the thank-you caption, and no row number |
| PdfGenerator.RowsNumbered | src/utils/pdfGenerator.ts:226-263 | the rows section as drawn numbers its rows 1, 2, …, one per line |
| PdfGenerator.ShowsAppend | src/utils/pdfGenerator.ts:50-79 | a piece shows in a document made of two parts exactly when it shows in one of them |
| PdfGenerator.FrontHides | src/utils/pdfGenerator.ts:81-223 | no caption other than the title and the front captions shows before the rows |
| PdfGenerator.TotalsHide | src/utils/pdfGenerator.ts:267-309 | the totals show no caption other than their own three |
| PdfGenerator.TermsHide | src/utils/pdfGenerator.ts:311-330 | the terms section shows no caption other than its two headings |
| PdfGenerator.QuotationLayoutParts | src/utils/pdfGenerator.ts:33-360 | the quotation document is its front, then its rows, then its tail drawn from where the rows ended |
| PdfGenerator.InvoiceLayoutParts | src/utils/pdfGenerator.ts:362-699 | the invoice document is its front, then its rows, then its tail drawn from where the rows ended |
| PdfGenerator.QuotationRows | src/utils/pdfGenerator.ts:226-263 | the quotation PDF has exactly one row per stored line (none when there are no lines), in order, numbered from 1 |
| PdfGenerator.QuotationDiscountLine | src/utils/pdfGenerator.ts:277-285 | the quotation PDF shows the discount line exactly when the stored discount is positive |
| PdfGenerator.QuotationTermsLine | src/utils/pdfGenerator.ts:318-323 | the quotation PDF shows the payment-terms block exactly when there are terms |
| PdfGenerator.QuotationNotesLine | src/utils/pdfGenerator.ts:325-330 | the quotation PDF shows the notes block exactly when there are notes |
| PdfGenerator.QuotationGrandTotal | src/utils/pdfGenerator.ts:301-307 | the quotation PDF prints the stored grand total |
| PdfGenerator.InvoiceRows | src/utils/pdfGenerator.ts:548-581 | the invoice PDF has exactly one row per stored line, in order, numbered from 1 |
| PdfGenerator.InvoiceDiscountLine | src/utils/pdfGenerator.ts:593-601 | the invoice PDF shows the discount line exactly when the stored discount is positive |
| PdfGenerator.InvoiceTermsLine | src/utils/pdfGenerator.ts:660-665 | the invoice PDF shows the payment-terms block exactly when there are terms |
| PdfGenerator.InvoiceAmounts | src/utils/pdfGenerator.ts:614-650 | the invoice PDF prints the stored grand total and the upper-cased status and, once something was paid, the amount paid and the balance due |
| PdfGenerator.PdfDocument.constructor | src/utils/pdfGenerator.ts:37-41 | a new document has drawn nothing, is on page 1 and is not saved |
| PdfGenerator.PdfDocument.AddText | src/utils/pdfGenerator.ts:50-79 | one text call appends one text operation on the current page and changes nothing else |
| PdfGenerator.PdfDocument.AddLine | src/utils/pdfGenerator.ts:141 | one line call appends one line operation on the current page |
| PdfGenerator.PdfDocument.AddRect | src/utils/pdfGenerator.ts:206 | one rectangle call appends one rectangle on the current page |
| PdfGenerator.PdfDocument.AddPage | src/utils/pdfGenerator.ts:229 | a page break is recorded and the current page advances by one |
| PdfGenerator.PdfDocument.Save | src/utils/pdfGenerator.ts:359 | saving records the file name and draws nothing |
| PdfGenerator.PdfDocument.DrawHeader | src/utils/pdfGenerator.ts:81-142 | draws exactly the header operations and leaves the cursor at the header's end |
| PdfGenerator.PdfDocument.DrawFront | src/utils/pdfGenerator.ts:81-223 | draws exactly the header, client block and table header on page 1 and ends where the rows begin |
| PdfGenerator.PdfDocument.DrawOptional | src/utils/pdfGenerator.ts:159-165 | a client field is drawn, advancing 5, exactly when it is non-empty |
| PdfGenerator.PdfDocument.DrawClient | src/utils/pdfGenerator.ts:144-192 | draws exactly the client block and advances past it |
| PdfGenerator.PdfDocument.DrawTableHeader | src/utils/pdfGenerator.ts:204-223 | draws exactly the table header and advances 12 |
| PdfGenerator.PdfDocument.DrawRowBody | src/utils/pdfGenerator.ts:233-262 | draws exactly one row and advances by the row's height |
| PdfGenerator.PdfDocument.DrawRow | src/utils/pdfGenerator.ts:226-263 | one loop iteration: a page break when the row would start below the limit, then the row |
| PdfGenerator.PdfDocument.DrawRows | src/utils/pdfGenerator.ts:226-263 | the loop draws exactly the rows section of the lines, in order, with its page breaks |
| PdfGenerator.PdfDocument.DrawDiscount | src/utils/pdfGenerator.ts:277-285 | draws the discount line, advancing 7, only when the stored discount is positive |
| PdfGenerator.PdfDocument.DrawGst | src/utils/pdfGenerator.ts:288-292 | draws the GST line, advancing 7, only when the stored GST is positive |
| PdfGenerator.PdfDocument.DrawTotals | src/utils/pdfGenerator.ts:265-309 | draws exactly the totals block |
| PdfGenerator.PdfDocument.DrawPayment | src/utils/pdfGenerator.ts:622-652 | draws exactly the status and payment lines |
| PdfGenerator.PdfDocument.DrawBlock | src/utils/pdfGenerator.ts:318-323 | draws a heading and its text only when the text is non-empty |
| PdfGenerator.PdfDocument.DrawTerms | src/utils/pdfGenerator.ts:311-330 | draws exactly the terms section, with its page break when needed |
| PdfGenerator.PdfDocument.DrawFooter | src/utils/pdfGenerator.ts:332-356 | draws exactly the footer on the last page |
| PdfGenerator.GenerateQuotationPdf | src/utils/pdfGenerator.ts:33-360 | the document drawn is exactly the quotation layout, saved as the quotation number with `.pdf` |
| PdfGenerator.GenerateInvoicePdf | src/utils/pdfGenerator.ts:362-699 | the document drawn is exactly the invoice layout, saved as the invoice number with `.pdf` |
| RateLimiter.FullConfig | src/hooks/useRateLimiter.ts:63 | each field of the merged configuration is the override when given and the default otherwise |
| RateLimiter.NoOverridesIsDefault | src/hooks/useRateLimiter.ts:30-40 | with no overrides the configuration is 5 attempts, lockouts of 30 s, 1 min, 5 min and 15 min, a 15-minute window and the key `auth_rate_limit` |
| RateLimiter.LockoutIndex | src/hooks/useRateLimiter.ts:113-116 | the chosen lockout duration index is always a valid index into the durations |
| RateLimiter.LockoutIndexMonotone | src/hooks/useRateLimiter.ts:113-116 | more failed attempts never select a shorter-listed duration index |
| RateLimiter.DefaultLockoutSteps | src/hooks/useRateLimiter.ts:30-40 | under the defaults, 5-9 attempts lock for 30 s, 10-14 for 1 min, 15-19 for 5 min and 20 or more for 15 min |
| RateLimiter.SuccessResets | src/hooks/useRateLimiter.ts:89-119 | after a success the limiter is unlocked at every time and the next failure, however soon, counts as the first |
| RateLimiter.AfterFailure | src/hooks/useRateLimiter.ts:101-125 | a failure records the time, restarts the count at 1 after a quiet window or adds one, and sets a lockout exactly when the count reaches the maximum, lasting one of the configured durations |
| RateLimiter.LockoutWindow | src/hooks/useRateLimiter.ts:68-119 | a lockout set by a failure holds up to and including its end and not after it |
| RateLimiter.FailuresCount | src/hooks/useRateLimiter.ts:101-107 | a run of failures each within the window of the previous one counts at least one per failure and ends at the last failure's time |
| RateLimiter.RunStepCount | src/hooks/useRateLimiter.ts:101-107 | a run that starts within the window of the last attempt adds exactly one per failure |
| RateLimiter.MaxFailuresLock | src/hooks/useRateLimiter.ts:101-125 | maxAttempts failures in a row within the window always leave the limiter locked at the last of them |
| RateLimiter.LastFailureLocks | src/hooks/useRateLimiter.ts:111-119 | a run whose final count reaches the maximum is locked at its last failure |
| RateLimiter.ClearExpired | src/hooks/useRateLimiter.ts:68-78 | an expired lockout is cleared, a live one or none is kept, attempts and last-attempt time never change |
| RateLimiter.ClearExpiredIdempotent | src/hooks/useRateLimiter.ts:68-78 | checking twice is the same as checking once, and clearing never changes whether the limiter is locked now |
| RateLimiter.RemainingLockout | src/hooks/useRateLimiter.ts:80-84 | the remaining time is never negative, zero without a lockout, positive only while locked, and the exact time left while locked |
| RateLimiter.RateLimiterHook.constructor | src/hooks/useRateLimiter.ts:42-66 | the hook starts from the stored state under its key, or the initial state when none is stored |
| RateLimiter.RateLimiterHook.Save | src/hooks/useRateLimiter.ts:54-60 | the new state is both the hook's state and the stored value under its key |
| RateLimiter.RateLimiterHook.IsLocked | src/hooks/useRateLimiter.ts:68-78 | answers whether the old state is locked now and leaves the state with an expired lockout cleared, storing it only when it changed |
| RateLimiter.RateLimiterHook.RecordAttempt | src/hooks/useRateLimiter.ts:86-129 | the new state is AfterSuccess or AfterFailure of the old one and is stored under the key |
| RateLimiter.RateLimiterHook.Reset | src/hooks/useRateLimiter.ts:131-139 | the state returns to the initial one and that is stored |
| RateLimiter.RateLimiterHook.Render | src/hooks/useRateLimiter.ts:141-147 | the returned lock flag, attempts and remaining time are those of the state before the render's isLocked call |
| Auth.CeilDiv | src/pages/Auth.tsx:56-58 | the rounded-up quotient is the least whole number of divisor units covering the dividend |
| Auth.CeilDivUnique | src/pages/Auth.tsx:56-58 | any number with that covering property is the rounded-up quotient |
| Auth.CeilDivNested | src/pages/Auth.tsx:56-58 | rounding milliseconds up to seconds and then to minutes is rounding up to minutes directly |
| Auth.LockoutTimeSeconds | src/pages/Auth.tsx:55-57 | up to 59 s the wait reads as the whole seconds rounded up, followed by "seconds" |
| Auth.LockoutTimeMinutes | src/pages/Auth.tsx:55-59 | above 59 s the wait reads as the whole minutes rounded up, with "minute" singular exactly for one |
| Auth.DefaultDurationsFormatted | src/pages/Auth.tsx:55-60 | the limiter's default lockouts read as "30 seconds", "1 minute", "5 minutes" and "15 minutes" |
| Auth.AuthIssuesEmptyIff | src/pages/Auth.tsx:23-31 | the credentials parse exactly when the email is 1 to 255 characters and well-formed and the password is 1 to 100 characters |
| Auth.CollectFieldErrors | src/pages/Auth.tsx:85-89 | each field's error is the message of the last issue about that field, or none |
| Auth.FieldMessages | src/pages/Auth.tsx:23-89 | the message shown under each field is that of its last failing check in schema order |
| Auth.EmailMessage | src/pages/Auth.tsx:24-27 | the email's message is "Email too long", else "Invalid email format", else "Email is required", else none |
| Auth.PasswordMessage | src/pages/Auth.tsx:28-30 | the password's message is "Password too long", else "Password is required", else none |
| Auth.LastMessageAppend | src/pages/Auth.tsx:86-89 | issues about other fields, before or after, do not change a field's last message |
| Auth.LastMessageNone | src/pages/Auth.tsx:86-89 | a field with no issue gets no message |
| Auth.AttemptsWarningGoesNegative | src/pages/Auth.tsx:189-197 | after a sixth failure whose lockout has run out, the page is unlocked at six attempts and warns "-1 attempts remaining" |
| Auth.SixthFailureTrace | src/hooks/useRateLimiter.ts:68-125 | five quick failures then one after the first lockout leave, once the second lockout has passed, an unlocked state with six attempts |
| Auth.SixAttemptsWarning | src/pages/Auth.tsx:196 | at six attempts the warning counts minus one |
| Auth.AttemptsLeft | src/pages/Auth.tsx:196 | the corrected count of attempts left is between 0 and 5 and is 5 minus the attempts made while that is not negative |
| Auth.AttemptsWarningCorrected | src/pages/Auth.tsx:189-197 | the corrected warning shows in the same cases, matches the page up to five attempts and never counts below zero |
| Auth.AuthConfig | src/pages/Auth.tsx:44-52 | the page's limiter uses the defaults with the key `admin_login_rate_limit` |
| Auth.SignInToast | src/pages/Auth.tsx:99-126 | only a successful sign-in gives a non-error toast, and a rejected one gives the same generic message whatever was wrong |
| Auth.AuthPage.constructor | src/pages/Auth.tsx:33-52 | the page starts with empty fields, no errors and a limiter on its own key |
| Auth.AuthPage.HandleSubmit | src/pages/Auth.tsx:68-130 | while locked only the wait toast is raised; invalid input only sets the field errors; otherwise signIn is called once, the attempt is recorded as success or failure and its toast raised |
| ContactForm.Check | supabase/functions/contact-form/index.ts:15-30 | a client with no record or an expired one is allowed with 4 left and a fresh one-hour window; a full window is refused with 0 left and its record untouched; otherwise the count goes up by one and the remaining count is the maximum minus it |
| ContactForm.CheckKeepsBounds | supabase/functions/contact-form/index.ts:15-30 | a record always counts between 1 and 5 and the remaining count is between 0 and 4 |
| ContactForm.WindowAdmitsRest | supabase/functions/contact-form/index.ts:19-29 | within one window a record that has counted some submissions admits at most the rest of the five |
| ContactForm.WindowFullRejects | supabase/functions/contact-form/index.ts:24-26 | a full record refuses every check until its window ends |
| ContactForm.AtMostMaxPerWindow | supabase/functions/contact-form/index.ts:12-30 | from a client's first submission, at most five submissions are allowed within the hour that follows |
| ContactForm.PlainWithin | supabase/functions/contact-form/index.ts:50 | a part of a run of characters other than white space and `@` is such a run |
| ContactForm.PlainAround | supabase/functions/contact-form/index.ts:50 | two such runs around one such character make one run |
| ContactForm.EmailPatternIff | supabase/functions/contact-form/index.ts:50-51 | the scanning check accepts exactly the strings the address pattern matches |
| ContactForm.ScanMatches | supabase/functions/contact-form/index.ts:50-51 | a string the scan accepts matches the pattern |
| ContactForm.MatchScans | supabase/functions/contact-form/index.ts:50-51 | a string that matches the pattern with a given `@` and dot is accepted by the scan |
| ContactForm.EmailPatternLower | supabase/functions/contact-form/index.ts:50-76 | lower-casing an address that matches the pattern keeps it matching |
| ContactForm.StripTags | supabase/functions/contact-form/index.ts:69 | stripping never lengthens the text and keeps only characters that were in it |
| ContactForm.StripTagsNoTag | supabase/functions/contact-form/index.ts:69 | after stripping no `<` is followed anywhere later by a `>` |
| ContactForm.StripTagsClean | supabase/functions/contact-form/index.ts:69 | text with nothing tag-like is left as it is |
| ContactForm.StripTagsIdempotent | supabase/functions/contact-form/index.ts:69 | stripping twice strips nothing more |
| ContactForm.Sanitize | supabase/functions/contact-form/index.ts:69 | the sanitised text is tag-free and no longer than the trimmed input |
| ContactForm.NameError | supabase/functions/contact-form/index.ts:43-47 | a missing name or one under 2 trimmed characters is too short, one over 255 is too long, and exactly the rest pass |
| ContactForm.EmailError | supabase/functions/contact-form/index.ts:50-55 | a missing address or one whose trimmed form does not match the pattern is invalid, a matching one over 255 is too long, and exactly the rest pass |
| ContactForm.MessageError | supabase/functions/contact-form/index.ts:58-62 | a missing message or one under 10 trimmed characters is too short, one over 5000 is too long, and exactly the rest pass |
| ContactForm.Pushed | supabase/functions/contact-form/index.ts:43-62 | each field pushes at most one error, and none exactly when it passes |
| ContactForm.NotAnObjectRejected | supabase/functions/contact-form/index.ts:36-38 | a body that is not an object gets exactly the one body error |
| ContactForm.ValidateErrors | supabase/functions/contact-form/index.ts:33-80 | the errors are those of name, email and message in that order, at most three; the input is valid exactly when there are none, exactly when every field is within its limits, and only then is a sanitised contact returned |
| ContactForm.ValidSanitized | supabase/functions/contact-form/index.ts:68-79 | an accepted submission stores name and message trimmed and tag-free and the address trimmed, lower-cased, at most 255 characters and still matching the pattern |
| ContactForm.StripLeadingTag | supabase/functions/contact-form/index.ts:69 | a complete tag at the front is dropped |
| ContactForm.TagOnlyNameStoredEmpty | supabase/functions/contact-form/index.ts:43-75 | a name made only of an opening and a closing tag passes the length rule yet is stored empty |
| ContactForm.TagPairStripped | supabase/functions/contact-form/index.ts:69 | an opening tag followed by its closing tag strips to nothing |
| ContactForm.ValidateInput | supabase/functions/contact-form/index.ts:33-80 | pushing each error as its rule fails gives exactly the validation result described above |
| ContactForm.ClientIp | supabase/functions/contact-form/index.ts:97-99 | the client key is never empty and is the first trimmed forwarded address whenever that one is not empty |
| ContactForm.Status | supabase/functions/contact-form/index.ts:84-172 | only a preflight and a successful send answer 200 |
| ContactForm.PostReply | supabase/functions/contact-form/index.ts:102-172 | a refused rate check answers 429 with a retry of 3600 s; a send happens exactly when the check allows it, the body parses and validates and the insert succeeds, and it reports the remaining count; an invalid body answers with its validation errors |
| ContactForm.ContactFunction.constructor | supabase/functions/contact-form/index.ts:10 | a cold start begins with an empty rate-limit map |
| ContactForm.ContactFunction.CheckRateLimit | supabase/functions/contact-form/index.ts:15-30 | the answer and the caller's new record are those of Check on its old record, the map's other keys are untouched and every record stays within bounds |
| ContactForm.ContactFunction.Serve | supabase/functions/contact-form/index.ts:82-181 | preflight and other methods leave the map alone; a POST is counted under its client key whatever its body and answered as PostReply says; a row is inserted exactly when the reply is a send, and it is the sanitised contact |
| PageTracking.OneMarker | src/hooks/usePageTracking.tsx:21-32 | a rule with one marker fires exactly when that marker occurs |
| PageTracking.TwoMarkers | src/hooks/usePageTracking.tsx:25-33 | a rule with two markers fires exactly when either occurs |
| PageTracking.FirstMatchStep | src/hooks/usePageTracking.tsx:20-33 | the first rule that fires decides the family, later rules are consulted only when it does not |
| PageTracking.BrowserIsFirstMatch | src/hooks/usePageTracking.tsx:19-25 | the browser is the family of the first of Firefox, Edg, Chrome, Safari, Opera/OPR that occurs, else Unknown |
| PageTracking.OsIsFirstMatch | src/hooks/usePageTracking.tsx:27-33 | the system is the family of the first of Windows, Mac OS, Linux, Android, iPhone/iPad that occurs, else Unknown |
| PageTracking.ChromeBeforeSafari | src/hooks/usePageTracking.tsx:21-24 | a user agent naming Chrome and Safari is read as Chrome exactly when it names neither Firefox nor Edg |
| PageTracking.ShadowedSystems | src/hooks/usePageTracking.tsx:29-33 | Android is reported only without "Linux" and iOS only without "Mac OS" or "Windows", so a Linux user agent without the earlier words is always Linux |
| PageTracking.DeviceCases | src/hooks/usePageTracking.tsx:35-39 | the device is Tablet exactly when "ipad" occurs in any letter case, Mobile exactly for the other mobile markers without it, Desktop otherwise |
| PageTracking.ParseUserAgentParts | src/hooks/usePageTracking.tsx:41 | splitting the parsed user agent at `/` gives back the browser, system and device names, and the browser is one of the six names |
| PageTracking.NamesHaveNoSlash | src/hooks/usePageTracking.tsx:20-38 | no family name contains a `/` |
| PageTracking.SanitizeReferrer | src/hooks/usePageTracking.tsx:48-60 | a missing or empty referrer gives nothing; any other is reduced to its origin and path, or nothing when it does not parse |
| PageTracking.PageTracker.constructor | src/hooks/usePageTracking.tsx:62-63 | the tracker starts with the browser's local storage and no rows |
| PageTracking.PageTracker.GetVisitorId | src/hooks/usePageTracking.tsx:5-12 | a stored visitor id is returned unchanged; otherwise the new id is stored and returned; afterwards the returned id is the stored one |
| PageTracking.PageTracker.TrackPageView | src/hooks/usePageTracking.tsx:65-81 | one row with the path, the stored visitor id, the sanitised referrer and the parsed user agent is appended unless the insert fails; a stored visitor id is kept, and with none stored `newId` is stored and used |
| StartProject.FirstWith | src/pages/StartProject.tsx:169-177 | the index found is that of the first entry with the id, or the list's length when none has it |
| StartProject.FindLabel | src/pages/StartProject.tsx:169-177 | there is a label exactly when some entry has the id, and it is the label of the first such entry |
| StartProject.Without | src/pages/StartProject.tsx:130 | filtering removes the service and keeps exactly the others, and leaves a list without it unchanged |
| StartProject.ToggleFlips | src/pages/StartProject.tsx:126-133 | toggling flips whether that service is selected and changes no other |
| StartProject.ToggleTwice | src/pages/StartProject.tsx:126-133 | toggling an unselected service twice gives back the same list |
| StartProject.WithoutAppended | src/pages/StartProject.tsx:130-131 | removing a service just appended gives back the list it was appended to |
| StartProject.ToggleKeepsDistinct | src/pages/StartProject.tsx:126-133 | a list without repeats keeps none after a toggle |
| StartProject.WithoutDistinct | src/pages/StartProject.tsx:130 | filtering a list without repeats leaves none |
| StartProject.DirectServiceChecksDiffer | src/pages/StartProject.tsx:71-121 | the page's direct-service test admits every listed service and, besides them, exactly the keys every object inherits |
| StartProject.InheritedKeyOpensDirectForm | src/pages/StartProject.tsx:106-121 | `?service=toString` passes the page's direct-service test though no such service is listed |
| StartProject.InitialForm | src/pages/StartProject.tsx:108-124 | a link naming a listed service starts the form with that one service selected; otherwise with none; the other fields take their initial values |
| StartProject.NameAcceptedIff | src/pages/StartProject.tsx:151 | a name passes exactly when its trimmed form is not empty and it has at least two characters |
| StartProject.EmailAcceptedIff | src/pages/StartProject.tsx:155 | an address passes exactly when its trimmed form is not empty and it matches the pattern, which is the same as matching the pattern |
| StartProject.PatternTrimmed | src/pages/StartProject.tsx:155 | an address that matches the pattern begins and ends with a printed character |
| StartProject.NameCheckLooserThanServer | src/pages/StartProject.tsx:151 | every name the contact-form function accepts also passes the page's check |
| StartProject.SpacedNameSlipsThrough | src/pages/StartProject.tsx:151 | the name " a" passes the page's check but is refused as too short by the contact-form function |
| StartProject.EmailCheckAgreesWithServer | src/pages/StartProject.tsx:155 | an address the page accepts is accepted by the contact-form function exactly when it has at most 255 characters |
| StartProject.FullPhone | src/pages/StartProject.tsx:173 | without a number the phone reads "Not specified"; with one it is the country code, a space and the number |
| StartProject.LabelOrPrintable | src/pages/StartProject.tsx:169-177 | a looked-up label or its fallback is never empty and has no white space at either end when the labels have none |
| StartProject.TimelineLabelsPrintable | src/pages/StartProject.tsx:82-85 | the timeline labels are printable as they are |
| StartProject.JoinHead | src/pages/StartProject.tsx:167-180 | joined lines start with the first character of the first line |
| StartProject.JoinLast | src/pages/StartProject.tsx:167-180 | joined lines end with the last character of the last line |
| StartProject.TemplateTrimmed | src/pages/StartProject.tsx:167-180 | trimming the template leaves exactly its lines joined by line breaks when they begin and end with printed characters |
| StartProject.DirectMessageText | src/pages/StartProject.tsx:166-171 | a direct-service message is its service, goal and timeline lines joined by line breaks |
| StartProject.TemplateKeepsHead | src/pages/StartProject.tsx:167-180 | trimming keeps at least the first line and the goal heading |
| StartProject.MessageNeverShort | src/pages/StartProject.tsx:163-181 | the message the page sends is never refused by the contact-form function as too short |
| StartProject.NoticeToast | src/pages/StartProject.tsx:137-204 | every toast of the page is an error toast with a title |
| StartProject.StartProjectPage.constructor | src/pages/StartProject.tsx:99-124 | the page starts on step 1, not submitting or submitted, with no toasts and the initial form |
| StartProject.StartProjectPage.ToggleService | src/pages/StartProject.tsx:126-133 | only the selected services change, flipping exactly the toggled one |
| StartProject.StartProjectPage.Next | src/pages/StartProject.tsx:135-144 | leaving step 1 with nothing selected only raises a toast; otherwise the page moves to step 2 |
| StartProject.StartProjectPage.Back | src/pages/StartProject.tsx:146-148 | the page returns to step 1 |
| StartProject.StartProjectPage.HandleSubmit | src/pages/StartProject.tsx:150-208 | a refused name or address raises its toast and sends nothing; otherwise the name, address and message are sent once, and the result follows Send |
| StartProject.StartProjectPage.Send | src/pages/StartProject.tsx:160-207 | the body is recorded; a failure raises a toast; a success marks a direct form submitted or moves the wizard to step 3; it ends not submitting |
| StartProject.SentBodyChecks | src/pages/StartProject.tsx:150-189 | a body the page sends has a name, an address and a message never too short for the contact-form function, and its address is accepted there exactly when it has at most 255 characters |
| AdminAnalytics.Set | src/components/admin/AdminAnalytics.tsx:54-72 | setting a key gives it the new count; a key already present keeps its place and a new one goes last |
| AdminAnalytics.SetWellFormed | src/components/admin/AdminAnalytics.tsx:51-73 | setting a key keeps every key listed once and exactly the counted keys listed |
| AdminAnalytics.EntriesOf | src/components/admin/AdminAnalytics.tsx:65-77 | the entries are the keys in insertion order, each with its count |
| AdminAnalytics.EntryOfKey | src/components/admin/AdminAnalytics.tsx:65-77 | every counted key appears among the entries with its count |
| AdminAnalytics.SumViewsEntries | src/components/admin/AdminAnalytics.tsx:65-77 | the entries' views add up to the counts of the listed keys |
| AdminAnalytics.SumOverUnlisted | src/components/admin/AdminAnalytics.tsx:54-72 | changing an unlisted key does not change the sum |
| AdminAnalytics.SumOverRaise | src/components/admin/AdminAnalytics.tsx:60-72 | raising one listed key's count raises the sum by the same amount |
| AdminAnalytics.SumOverAppend | src/components/admin/AdminAnalytics.tsx:72 | a new key with its count adds that count to the sum |
| AdminAnalytics.TotalSet | src/components/admin/AdminAnalytics.tsx:60-72 | bumping a present key adds one to the total, adding a new key adds its count |
| AdminAnalytics.UnseenPathCount | src/components/admin/AdminAnalytics.tsx:69-73 | a page no view is of has no views |
| AdminAnalytics.VisitorsAtMostViews | src/components/admin/AdminAnalytics.tsx:47-48 | there are never more distinct visitors than views |
| AdminAnalytics.SubsetCard | src/components/admin/AdminAnalytics.tsx:48 | a subset of visitor ids is no larger than the set it is taken from |
| AdminAnalytics.SeedShape | src/components/admin/AdminAnalytics.tsx:51-55 | seeding gives a well-formed map of at most seven days, each counted zero |
| AdminAnalytics.SeedHasDays | src/components/admin/AdminAnalytics.tsx:52-55 | every one of the seven days is seeded |
| AdminAnalytics.SeedOnlyDays | src/components/admin/AdminAnalytics.tsx:52-55 | only those days are seeded |
| AdminAnalytics.SeedOrder | src/components/admin/AdminAnalytics.tsx:52-55 | with seven different day keys the seeded days are in order, six days ago first |
| AdminAnalytics.CountDaysShape | src/components/admin/AdminAnalytics.tsx:57-62 | counting keeps the seeded days and their order, adding no key |
| AdminAnalytics.CountDaysValues | src/components/admin/AdminAnalytics.tsx:57-62 | each seeded day's count is the number of views on that day |
| AdminAnalytics.CountDaysTotal | src/components/admin/AdminAnalytics.tsx:57-62 | the day counts add up to at most the number of views |
| AdminAnalytics.SumZero | src/components/admin/AdminAnalytics.tsx:54 | keys all counted zero add up to zero |
| AdminAnalytics.CountPagesShape | src/components/admin/AdminAnalytics.tsx:69-73 | the page map is well formed |
| AdminAnalytics.CountPagesCovers | src/components/admin/AdminAnalytics.tsx:69-73 | every viewed page is counted |
| AdminAnalytics.CountPagesValues | src/components/admin/AdminAnalytics.tsx:69-73 | every counted page's count is its number of views, at least one |
| AdminAnalytics.CountPagesTotal | src/components/admin/AdminAnalytics.tsx:69-73 | the page counts add up to exactly the number of views |
| AdminAnalytics.CountedPathOccurs | src/components/admin/AdminAnalytics.tsx:69-73 | every counted page is the page of some view |
| AdminAnalytics.SeedDays | src/components/admin/AdminAnalytics.tsx:51-55 | the loop over the last seven days builds exactly the seeded map |
| AdminAnalytics.CountDays | src/components/admin/AdminAnalytics.tsx:57-62 | the loop over the views builds exactly the day counts, views on other days ignored |
| AdminAnalytics.CountPages | src/components/admin/AdminAnalytics.tsx:69-73 | the loop over the views builds exactly the page counts |
| AdminAnalytics.Insert | src/components/admin/AdminAnalytics.tsx:78 | inserting keeps every entry and adds the new one once |
| AdminAnalytics.InsertDescending | src/components/admin/AdminAnalytics.tsx:78 | inserting into a list sorted by views, most first, keeps it sorted |
| AdminAnalytics.SortByViews | src/components/admin/AdminAnalytics.tsx:78 | sorting is a permutation of the entries |
| AdminAnalytics.SortDescending | src/components/admin/AdminAnalytics.tsx:78 | the sorted entries are in descending order of views |
| AdminAnalytics.TopPagesShape | src/components/admin/AdminAnalytics.tsx:75-80 | the top pages are the first five (or all, when fewer) of the sorted entries, most viewed first, each one of the entries |
| AdminAnalytics.TopPagesCutoff | src/components/admin/AdminAnalytics.tsx:78-79 | an entry left out means five are shown and it has no more views than the fifth |
| AdminAnalytics.DailyMap | src/components/admin/AdminAnalytics.tsx:51-62 | the day map is well formed and keeps the seeded days in their order |
| AdminAnalytics.DailyViewsCounts | src/components/admin/AdminAnalytics.tsx:57-66 | each daily row counts the views of its day, no day appears twice, and the rows add up to at most the number of views |
| AdminAnalytics.DailyViewsHasDays | src/components/admin/AdminAnalytics.tsx:51-66 | there are one to seven daily rows and each of the last seven days has one |
| AdminAnalytics.DailyViewsOnlyDays | src/components/admin/AdminAnalytics.tsx:51-66 | every daily row is one of the last seven days |
| AdminAnalytics.DailyViewsOrder | src/components/admin/AdminAnalytics.tsx:51-66 | with seven different day keys there are exactly seven rows, oldest first |
| AdminAnalytics.PageStatsRows | src/components/admin/AdminAnalytics.tsx:68-80 | at most five page rows, most viewed first, each a viewed page with its number of views |
| AdminAnalytics.PageStatsCover | src/components/admin/AdminAnalytics.tsx:68-80 | every viewed page is shown with its count, or five pages are shown, none with fewer views |
| AdminAnalytics.AnalyticsPanel.constructor | src/components/admin/AdminAnalytics.tsx:29-33 | the panel starts loading with empty figures |
| AdminAnalytics.AnalyticsPanel.FetchAnalytics | src/components/admin/AdminAnalytics.tsx:36-86 | loading always ends; a failed query leaves the figures; otherwise the panel shows the total views, the distinct visitors, the daily rows and the page rows of the fetched views |
| AdminAnalytics.Tally | src/components/admin/AdminAnalytics.tsx:46-80 | the distinct visitors, daily rows and page rows are exactly those derived from the views |
| BlogManager.PostData | src/components/admin/cms/BlogManager.tsx:83-87 | the saved post carries the form's fields, the typed slug or one made from the title, and a publication time exactly when it is published |
| BlogManager.EditForm | src/components/admin/cms/BlogManager.tsx:111-120 | the form is filled from the post, missing texts as empty |
| BlogManager.SaveUnchangedEdit | src/components/admin/cms/BlogManager.tsx:83-120 | saving an edit form left as it was writes the post back, texts that were missing now empty and the publication time renewed |
| BlogManager.WithStatus | src/components/admin/cms/BlogManager.tsx:138-147 | a status change sets the status and a publication time exactly when it is published, and nothing else |
| BlogManager.StatusBadge | src/components/admin/cms/BlogManager.tsx:162-169 | published shows the default badge, archived the destructive one, and every other status the secondary one |
| BlogManager.NoticeToast | src/components/admin/cms/BlogManager.tsx:95-153 | exactly the failure toasts are destructive, and they are titled "Error", the others "Success" |
| BlogManager.BlogScreen.constructor | src/components/admin/cms/BlogManager.tsx:47-58 | the screen starts with the table, the empty form, nothing being edited and the dialog closed |
| BlogManager.BlogScreen.ResetForm | src/components/admin/cms/BlogManager.tsx:157-160 | the form is emptied and nothing is being edited |
| BlogManager.BlogScreen.HandleEdit | src/components/admin/cms/BlogManager.tsx:111-122 | the form is filled from the post, the post is being edited and the dialog opens |
| BlogManager.BlogScreen.HandleSubmit | src/components/admin/cms/BlogManager.tsx:81-109 | a failure only adds the error toast; an edit writes the post under its id; an insert adds it under the new id; on success the dialog closes and the form is reset |
| BlogManager.BlogScreen.HandleDelete | src/components/admin/cms/BlogManager.tsx:124-136 | without confirmation nothing happens; a failure only raises a toast; otherwise the post is removed |
| BlogManager.BlogScreen.ToggleStatus | src/components/admin/cms/BlogManager.tsx:138-155 | on success the post gets the toggled status and matching publication time, and the toast says whether it was published |
| PortfolioManager.Technologies | src/components/admin/cms/PortfolioManager.tsx:88 | an empty line stores null, any other line a list |
| PortfolioManager.TechnologiesShape | src/components/admin/cms/PortfolioManager.tsx:88 | a typed line gives one more technology than it has commas, each trimmed and free of commas |
| PortfolioManager.Spaced | src/components/admin/cms/PortfolioManager.tsx:121 | each entry gets one leading space |
| PortfolioManager.JoinSpaced | src/components/admin/cms/PortfolioManager.tsx:121 | joining spaced entries with commas is joining the entries with comma and space, after one leading space |
| PortfolioManager.JoinCommaSpace | src/components/admin/cms/PortfolioManager.tsx:121 | joining with comma and space is joining with commas once every entry after the first has a leading space |
| PortfolioManager.TrimSpacedPieces | src/components/admin/cms/PortfolioManager.tsx:88-121 | trimming the pieces of a joined list of trimmed names gives the names back |
| PortfolioManager.TechnologiesRoundTripMany | src/components/admin/cms/PortfolioManager.tsx:88-121 | the edit line of two or more trimmed, comma-free technologies is read back as the same list |
| PortfolioManager.TechnologiesRoundTrip | src/components/admin/cms/PortfolioManager.tsx:88-121 | the edit line of any non-empty list of trimmed, comma-free technologies, other than one empty name, is read back as the same list |
| PortfolioManager.NoTechnologiesToNull | src/components/admin/cms/PortfolioManager.tsx:88-121 | null technologies or an empty list edit as an empty line and are saved back as null |
| PortfolioManager.ProjectDataOf | src/components/admin/cms/PortfolioManager.tsx:82-92 | the saved project has the typed slug or one made from the title, the parsed technologies, and null for every empty optional text |
| PortfolioManager.SaveUnchangedEdit | src/components/admin/cms/PortfolioManager.tsx:82-127 | saving an edit form left as it was writes back unchanged any project with a slug, no optional text stored empty and technologies that read back |
| PortfolioManager.NoticeToast | src/components/admin/cms/PortfolioManager.tsx:97-149 | exactly the failure toasts are destructive, and they are titled "Error", the others "Success" |
| PortfolioManager.PortfolioScreen.constructor | src/components/admin/cms/PortfolioManager.tsx:46-60 | the screen starts with the table, the empty form, nothing being edited and the dialog closed |
| PortfolioManager.PortfolioScreen.ResetForm | src/components/admin/cms/PortfolioManager.tsx:153-156 | the form is emptied and nothing is being edited |
| PortfolioManager.PortfolioScreen.HandleEdit | src/components/admin/cms/PortfolioManager.tsx:113-127 | the form is filled from the project, the project is being edited and the dialog opens |
| PortfolioManager.PortfolioScreen.HandleSubmit | src/components/admin/cms/PortfolioManager.tsx:80-111 | the form's project data is saved as Save states |
| PortfolioManager.PortfolioScreen.Save | src/components/admin/cms/PortfolioManager.tsx:94-110 | a failure only adds the error toast; an edit rewrites the project's columns keeping its place; an insert adds it under the new id after the existing projects; on success the dialog closes and the form is reset |
| PortfolioManager.PortfolioScreen.HandleDelete | src/components/admin/cms/PortfolioManager.tsx:129-139 | without confirmation nothing happens; a failure only raises a toast; otherwise the project is removed |
| PortfolioManager.PortfolioScreen.ToggleStatus | src/components/admin/cms/PortfolioManager.tsx:141-151 | on success only the project's status changes, to the toggled one, and the toast names the new status |
| ServicesManager.NonEmpty | src/components/admin/cms/ServicesManager.tsx:69 | exactly the non-empty entries are kept |
| ServicesManager.NonEmptyKeepsAll | src/components/admin/cms/ServicesManager.tsx:69 | a list without empty entries is kept whole |
| ServicesManager.ParseFeatures | src/components/admin/cms/ServicesManager.tsx:69 | an empty text stores null, any other text a list |
| ServicesManager.ParseFeaturesShape | src/components/admin/cms/ServicesManager.tsx:69 | every parsed feature is non-empty, trimmed and on one line |
| ServicesManager.ParseFeaturesKeepsLines | src/components/admin/cms/ServicesManager.tsx:69 | a typed line, trimmed, is a feature exactly when it is not blank |
| ServicesManager.StoredFeatures | src/components/admin/cms/ServicesManager.tsx:69 | the stored features are null exactly for an empty text and otherwise an array |
| ServicesManager.FeaturesRoundTrip | src/components/admin/cms/ServicesManager.tsx:69-100 | the edit text of non-empty, trimmed, one-line features is read back as the same array |
| ServicesManager.OtherFeaturesToNull | src/components/admin/cms/ServicesManager.tsx:69-100 | features that are not an array, null or an empty array edit as an empty text and are saved back as null |
| ServicesManager.ServiceDataOf | src/components/admin/cms/ServicesManager.tsx:65-72 | the saved service has the parsed features and null for every empty optional text |
| ServicesManager.SaveUnchangedEdit | src/components/admin/cms/ServicesManager.tsx:65-105 | saving an edit form left as it was writes back unchanged any service with no optional text stored empty and features that read back |
| ServicesManager.NoticeToast | src/components/admin/cms/ServicesManager.tsx:77-126 | exactly the failure toasts are destructive, and they are titled "Error", the others "Success" |
| ServicesManager.ServicesScreen.constructor | src/components/admin/cms/ServicesManager.tsx:32-43 | the screen starts with the table, the empty form, nothing being edited and the dialog closed |
| ServicesManager.ServicesScreen.ResetForm | src/components/admin/cms/ServicesManager.tsx:130-133 | the form is emptied with the service active, and nothing is being edited |
| ServicesManager.ServicesScreen.HandleEdit | src/components/admin/cms/ServicesManager.tsx:93-105 | the form is filled from the service, the service is being edited and the dialog opens |
| ServicesManager.ServicesScreen.HandleSubmit | src/components/admin/cms/ServicesManager.tsx:63-91 | the form's service data is saved as Save states |
| ServicesManager.ServicesScreen.Save | src/components/admin/cms/ServicesManager.tsx:74-90 | a failure only adds the error toast; an edit rewrites the service's columns keeping its place; an insert adds it under the new id after the existing services; on success the dialog closes and the form is reset |
| ServicesManager.ServicesScreen.HandleDelete | src/components/admin/cms/ServicesManager.tsx:107-117 | without confirmation nothing happens; a failure only raises a toast; otherwise the service is removed |
| ServicesManager.ServicesScreen.ToggleActive | src/components/admin/cms/ServicesManager.tsx:119-128 | on success only the service's active flag changes, to the negation of the listed one, and the toast says which |
| Slug.SkipRun | src/components/admin/cms/BlogManager.tsx:41 | what is left after a run of characters other than `a`-`z` and `0`-`9` is a suffix that starts with a letter or digit, if anything |
| Slug.Collapse | src/components/admin/cms/BlogManager.tsx:41 | only the empty title collapses to nothing, and a leading letter or digit stays first |
| Slug.LettersCollapse | src/components/admin/cms/BlogManager.tsx:41 | collapsing keeps every letter and digit, in order |
| Slug.CollapseDashed | src/components/admin/cms/BlogManager.tsx:41 | collapsing leaves only letters, digits and lone dashes |
| Slug.StripSlug | src/components/admin/cms/BlogManager.tsx:42 | dropping the end dashes of such a string gives a slug with the same letters and digits |
| Slug.GenerateSlugShape | src/components/admin/cms/BlogManager.tsx:38-43 | the generated slug is lower-case letters and digits separated by single dashes with none at either end, and keeps the lower-cased title's letters and digits in order |
| Slug.CollapseDashedFixed | src/components/admin/cms/BlogManager.tsx:41 | a string of letters, digits and lone dashes collapses to itself |
| Slug.SlugFixed | src/components/admin/cms/BlogManager.tsx:38-43 | a slug is its own slug |
| Slug.GenerateSlugIdempotent | src/components/admin/cms/BlogManager.tsx:38-43 | generating a slug from a slug changes nothing |
| Slug.SavedSlug | src/components/admin/cms/BlogManager.tsx:85 | the typed slug when there is one, else a slug of the title's letters and digits |
| Publishing.ToggledStatus | src/components/admin/cms/BlogManager.tsx:139 | the new status is draft exactly for a published post and published otherwise |
| Publishing.ToggleTwice | src/components/admin/cms/BlogManager.tsx:139 | toggling twice restores exactly the statuses the toggle produces |
| Wrappers.OrNull | src/components/admin/cms/PortfolioManager.tsx:85-90 | an empty text becomes null and any other text is kept |
| Text.TrimStart | supabase/functions/contact-form/index.ts:43 | what is left after the leading white space is a suffix of the text, starting with a printed character if anything |
| Text.TrimEnd | supabase/functions/contact-form/index.ts:43 | what is left before the trailing white space is a prefix of the text, ending with a printed character if anything |
| Text.TrimResult | supabase/functions/contact-form/index.ts:43 | a trimmed text has no white space at either end and is no longer than the text |
| Text.TrimOfTrimmed | supabase/functions/contact-form/index.ts:43 | trimming a text without white space at its ends changes nothing |
| Text.TrimPadded | src/components/admin/cms/PortfolioManager.tsx:88 | trimming removes white space put in front of a trimmed text |
| Text.TrimFramed | src/pages/StartProject.tsx:167-171 | trimming removes white space on both sides of a trimmed text |
| Text.TrimAll | src/components/admin/cms/PortfolioManager.tsx:88 | each piece is trimmed in place |
| Text.TrimEmptyIffAllSpace | src/pages/StartProject.tsx:151 | a text trims to nothing exactly when it is all white space |
| Text.ToLower | supabase/functions/contact-form/index.ts:76 | lower-casing maps each character in place |
| Text.ToUpper | src/utils/pdfGenerator.ts:633 | upper-casing maps each character in place |
| Text.ContainsIff | src/hooks/usePageTracking.tsx:21-33 | a text contains another exactly when the other occurs at some position |
| Text.SplitCount | src/components/admin/cms/PortfolioManager.tsx:88 | splitting gives one more piece than there are separators |
| Text.SplitPiecesFree | src/components/admin/cms/PortfolioManager.tsx:88 | no piece contains the separator |
| Text.SplitConcat | src/components/admin/cms/PortfolioManager.tsx:88 | splitting at a separator after a separator-free text gives that text first, then the pieces of the rest |
| Text.SplitJoin | src/components/admin/cms/PortfolioManager.tsx:88-121 | splitting pieces joined by a separator none of them contains gives the pieces back |
| Text.NatToString | src/pages/Auth.tsx:57 | a number prints as at least one digit, with no leading zero |
| Text.NatToStringValue | src/pages/Auth.tsx:57 | reading the printed digits back gives the number |
| Text.NatToStringInjective | src/pages/Auth.tsx:57 | different numbers print differently |
| Text.FirstIndex | supabase/functions/contact-form/index.ts:69 | the index found is that of the first occurrence of the character, or the length when there is none |

## Left out

- Network and store plumbing: the Supabase calls, row-level security, the audit triggers and the fetches that reload a list. Each write's outcome is a parameter (`fails`, or a fault value), standing in for an error the store may return.
- Document numbering: the server-side `generate_*_number` RPCs are a number passed in, because their uniqueness is enforced by the database.
- The `getQuotations`/`getInvoices` reads are left out; they are single store calls with no logic of their own.
- Quotation-to-invoice conversion: the menu item for it has no handler in the code (src/components/admin/QuotationsManager.tsx:429-433), so nothing implements it.
- Payments stay in memory, as in the code: `handleSavePayment` never calls the service.
- Time-based `expired` and `overdue` transitions: nothing in the code performs them.
- Three behaviours of the code that the model keeps:
  - `calculateTotals` does not clamp the form's balance due; only `handleSavePayment` clamps it.
  - An update validates nothing but the id.
  - A GST percentage of 0 is read as 18.
- Money is `real`. The IEEE double arithmetic, its rounding and `toLocaleString` currency formatting are not modelled.
- Dates and times are integer days and milliseconds passed in. `new Date`, date-fns `format`/`addDays` and ISO timestamps are not modelled. The analytics "MMM d" key and the key of the day `i` days ago are parameters (`dayKey`, `daysAgo`).
- The 30-day window and the ordering of the analytics query are applied by the store; the model takes its rows as given.
- zod's `.email()` check is a parameter (`isEmail`). The UUID regex and the contact-form and start-project email regexes are written out.
- `parseInt(validity_days)` before a quotation is saved: the model's validity is already an integer, so the coercion is the identity.
- `parseFloat(price_from)` in the services screen is not modelled; the typed text is kept.
- Service features are taken to be strings in an array; other element types are not modelled.
- `Text.ToLower`: it case-maps ASCII only, so `generateSlug`, the `/i` regexes and the search filters are exact for ASCII text only.
- UTF-16 code units: string lengths count `char`s, and the model does not distinguish surrogate pairs.
- PDF output: fonts, colours, x positions, text measurement, `maxWidth` wrapping and the bytes of the file are not modelled. Date formatting and currency formatting inside the PDF are not modelled either; the amounts printed are the stored fields.
- JSON parsing and persistence in the rate limiter and the visitor id (`sessionStorage`, `localStorage`) are maps or state fields, with no encoding.
- URL parsing in `sanitizeReferrer`: only its null case is modelled. The parsed origin and path are a parameter (`originAndPath`).
- `crypto.randomUUID` for the visitor id is a parameter (`newId`).
- Page tracking's `useEffect` run on every navigation is not modelled. Each tracked view is one call, given the path, the referrer and the user-agent string.
- The edge function's CORS headers, response bodies, console logging and the 500 branch for an unexpected error are left out. So are environment lookups and the instances sharing the in-memory map.
- Concurrency: races between async handlers and between editors (the last write wins) are not modelled.
- UI: JSX rendering, animation, dialogs and icons. On the login page, the start-project page and the content-manager screens, toasts are modelled as notice values appended to a list; the `confirm()` answer is a parameter. The start-project form's `onChange` handlers, which only copy a field, are left out.
- Billing editors' toasts: the success and failure toasts of `InvoicesManager` and `QuotationsManager` (save, delete, status change, payment, number generation, PDF) are not modelled. Each handler's `Result` from the store, or its success flag, stands for which toast would show.
- CMS screens:
  - the loaded list stands for the table, since every successful write reloads it;
  - the fetch, its loading flag and its error toast are not modelled;
  - database ids and timestamps are parameters;
  - an insert under an id already taken is modelled as a failed insert.
- BillingService.StoredQuotation, BillingService.StoredInvoice, BillingService.PatchQuotation, BillingService.PatchInvoice: the editors' payload carries the form's `items` array, and create (`{...quotation}`) and update (`.update(updates)`) send it with the header, but the header tables have no `items` column. The model assumes the store drops that key and writes the header; whether the store instead refuses the request is decided by the hosted store, which is not part of this model.
- CreateQuotation (BillingService.BillingStore.CreateQuotation): stores the header without the `items` key the request carries, as assumed for `StoredQuotation` above; a store that refused the key would make the call fail at the header write.
- UpdateQuotation (BillingService.BillingStore.UpdateQuotation): the patch drops the `items` key `.update(updates)` sends, as assumed for `PatchQuotation` above.
- CreateInvoice (BillingService.BillingStore.CreateInvoice): stores the header without the `items` key, as assumed for `StoredInvoice` above.
- UpdateInvoice (BillingService.BillingStore.UpdateInvoice): the patch drops the `items` key, as assumed for `PatchInvoice` above.
- StartProject.InitialForm: it, `SubmissionMessage`, the page's `Valid` and `Send` use the corrected direct-service check `IsDirectService` (only the listed services), not the page's truthy lookup `serviceDetails[serviceParam]` (src/pages/StartProject.tsx:106-124). For a key every object inherits, such as `?service=toString`, the page itself preselects that key, sends "Service: undefined" and sets `submitted`; the model runs the wizard instead. The as-written check and that input are modelled by `IsDirectServiceAsWritten` and `InheritedKeyOpensDirectForm` (see Findings).
- StartProject.StartProjectPage.Send: whether a success sets `submitted` or moves to step 3 follows the corrected direct-service check, as above.
- constructor (StartProject.StartProjectPage.constructor): starts from `InitialForm`, so it follows the corrected direct-service check, as above.
- HandleSubmit (StartProject.StartProjectPage.HandleSubmit): the message and the choice between `submitted` and step 3 follow the corrected direct-service check, as above.
- `BlogManager.StatusBadge`: `getStatusBadge` looks the status up in an object literal, so an inherited key such as `toString` would give an object and not a badge name. The model treats every unlisted status as `secondary`.
- `AdminAnalytics.SortByViews`: stated as sorted by views, descending, and a permutation of its input; the stability of the order among equal counts is not stated.

## Findings

| source | as written | input that shows it | evidently intended | confidence | as-written member | corrected member |
|---|---|---|---|---|---|---|
| src/pages/Auth.tsx:196 | the warning shows `5 - attempts` attempts remaining whenever the page is unlocked and more than two attempts are recorded | five quick failures (locked 30 s), a sixth after that lockout (locked again), then a visit once the second lockout has passed: unlocked at six attempts, "-1 attempts remaining" | a count that never goes below zero | not executed | Auth.AttemptsWarningGoesNegative | Auth.AttemptsWarningCorrected |
| src/pages/StartProject.tsx:106 | `serviceParam && serviceDetails[serviceParam]` (lines 106, 121, 164-166, 193, 219) indexes a plain object, so a key every object inherits is truthy too | `?service=toString` opens the direct-service form for a service that is not listed | only the listed services open the direct form | not executed | StartProject.InheritedKeyOpensDirectForm | StartProject.DirectServiceChecksDiffer |
