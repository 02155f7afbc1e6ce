/** The quotation editor of the admin area: the list with its search and status
    filter, the stats cards and the edit form with its lines, totals and
    validity date. The component's state is the class `QuotationsManager`. */
module Quotations {
  import opened Wrappers
  import opened Text
  import opened BillingTypes
  import opened BillingForm
  import opened BillingService

  // ---------------------------------------------------------------------
  // Search and filter
  // ---------------------------------------------------------------------

  /** The lower-cased query occurs in the lower-cased client name, business
      name or quotation number. */
  predicate MatchesSearch(q: Quotation, query: string) {
    var lq := ToLower(query);
    Contains(ToLower(q.client.name), lq) || Contains(ToLower(q.client.businessName), lq)
    || Contains(ToLower(q.number), lq)
  }

  predicate MatchesStatus(q: Quotation, statusFilter: string) {
    statusFilter == "all" || QuotationStatusName(q.status) == statusFilter
  }

  /** `filteredQuotations`. */
  function FilterQuotations(list: seq<Quotation>, query: string, statusFilter: string): seq<Quotation>
    decreases |list|
  {
    if list == [] then []
    else
      var rest := FilterQuotations(list[1..], query, statusFilter);
      if MatchesSearch(list[0], query) && MatchesStatus(list[0], statusFilter) then [list[0]] + rest else rest
  }

  /** A quotation is listed exactly when it is in the list and matches both the
      search and the status filter. */
  lemma {:induction false} FilterQuotationsMembers(list: seq<Quotation>, query: string, statusFilter: string)
    ensures |FilterQuotations(list, query, statusFilter)| <= |list|
    ensures forall q :: q in FilterQuotations(list, query, statusFilter) <==>
      q in list && MatchesSearch(q, query) && MatchesStatus(q, statusFilter)
    decreases |list|
  {
    if list != [] {
      FilterQuotationsMembers(list[1..], query, statusFilter);
      assert list == [list[0]] + list[1..];
    }
  }

  /** With an empty query and the `all` filter every quotation is listed. */
  lemma {:induction false} FilterQuotationsAll(list: seq<Quotation>)
    ensures FilterQuotations(list, "", "all") == list
    decreases |list|
  {
    if list != [] {
      FilterQuotationsAll(list[1..]);
      assert ToLower("") == "";
      assert Contains(ToLower(list[0].client.name), "");
      assert list == [list[0]] + list[1..];
    }
  }

  // ---------------------------------------------------------------------
  // Stats
  // ---------------------------------------------------------------------

  function CountStatus(list: seq<Quotation>, s: QuotationStatus): nat
    decreases |list|
  {
    if list == [] then 0 else (if list[0].status == s then 1 else 0) + CountStatus(list[1..], s)
  }

  /** The sum of the grand totals of all quotations, whatever their status. */
  function TotalValue(list: seq<Quotation>): real
    decreases |list|
  {
    if list == [] then 0.0 else list[0].pricing.grandTotal + TotalValue(list[1..])
  }

  datatype QuotationStats = QuotationStats(total: nat, draft: nat, sent: nat, accepted: nat, totalValue: real)

  /** `stats`. */
  function Stats(list: seq<Quotation>): QuotationStats {
    QuotationStats(|list|, CountStatus(list, QuotationStatus.Draft), CountStatus(list, QuotationStatus.Sent),
                   CountStatus(list, Accepted), TotalValue(list))
  }

  /** The per-status counts add up to the number of quotations, and the three
      counted cards never exceed it. */
  lemma {:induction false} StatusCountsPartition(list: seq<Quotation>)
    ensures CountStatus(list, QuotationStatus.Draft) + CountStatus(list, QuotationStatus.Sent)
          + CountStatus(list, Accepted) + CountStatus(list, Rejected) + CountStatus(list, Expired) == |list|
    ensures Stats(list).draft + Stats(list).sent + Stats(list).accepted <= Stats(list).total
    decreases |list|
  {
    if list != [] {
      StatusCountsPartition(list[1..]);
    }
  }

  /** The total value of the list is the sum over any split of it. */
  lemma {:induction false} TotalValueAppend(a: seq<Quotation>, b: seq<Quotation>)
    ensures TotalValue(a + b) == TotalValue(a) + TotalValue(b)
    decreases |a|
  {
    if a == [] {
      assert a + b == b;
    } else {
      TotalValueAppend(a[1..], b);
      assert (a + b)[1..] == a[1..] + b;
    }
  }

  /** A status change never alters the total value. */
  lemma {:induction false} StatusChangeKeepsValue(list: seq<Quotation>, id: string, s: QuotationStatus)
    ensures TotalValue(WithStatus(list, id, s)) == TotalValue(list)
    ensures |WithStatus(list, id, s)| == |list|
    decreases |list|
  {
    if list != [] {
      StatusChangeKeepsValue(list[1..], id, s);
      assert WithStatus(list, id, s)[1..] == WithStatus(list[1..], id, s);
    }
  }

  // ---------------------------------------------------------------------
  // Validity date, deletion and status changes
  // ---------------------------------------------------------------------

  /** The effect on the date and validity: when both are set (a validity of 0
      counts as unset), `valid_until` becomes the date plus the validity. */
  function WithValidUntil(q: Quotation): (r: Quotation)
    ensures r == q.(validUntil := r.validUntil)
    ensures q.date.Some? && q.validityDays != 0 ==> r.validUntil == Some(q.date.value + q.validityDays)
    ensures q.date.None? || q.validityDays == 0 ==> r == q
  {
    if q.date.Some? && q.validityDays != 0 then q.(validUntil := Some(q.date.value + q.validityDays)) else q
  }

  /** Running the effect a second time changes nothing. */
  lemma WithValidUntilIdempotent(q: Quotation)
    ensures WithValidUntil(WithValidUntil(q)) == WithValidUntil(q)
  {
  }

  /** `quotations.filter(q => q.id !== id)`. */
  function WithoutId(list: seq<Quotation>, id: string): seq<Quotation>
    decreases |list|
  {
    if list == [] then []
    else (if list[0].id == Some(id) then [] else [list[0]]) + WithoutId(list[1..], id)
  }

  /** Deleting from the list removes every quotation with that id and keeps the rest. */
  lemma {:induction false} WithoutIdMembers(list: seq<Quotation>, id: string)
    ensures forall q :: q in WithoutId(list, id) <==> q in list && q.id != Some(id)
    decreases |list|
  {
    if list != [] {
      WithoutIdMembers(list[1..], id);
      assert list == [list[0]] + list[1..];
    }
  }

  /** `quotations.map(q => q.id === id ? { ...q, status } : q)`. */
  function WithStatus(list: seq<Quotation>, id: string, s: QuotationStatus): (r: seq<Quotation>)
    ensures |r| == |list|
    ensures forall i :: 0 <= i < |list| ==>
      r[i] == if list[i].id == Some(id) then list[i].(status := s) else list[i]
  {
    seq(|list|, i requires 0 <= i < |list| => if list[i].id == Some(id) then list[i].(status := s) else list[i])
  }

  // ---------------------------------------------------------------------
  // The component
  // ---------------------------------------------------------------------

  class QuotationsManager {
    var quotations: seq<Quotation>
    var searchQuery: string
    var statusFilter: string
    var isFormOpen: bool
    var editingQuotation: Option<Quotation>
    var isPreviewOpen: bool
    var previewQuotation: Option<Quotation>
    var formData: Quotation
    var items: seq<Item>
    var enableGst: bool
    var enableDiscount: bool

    /** The initial state; `today` is the date `DEFAULT_QUOTATION` was built on. */
    constructor (today: int)
      ensures quotations == [] && searchQuery == "" && statusFilter == "all"
      ensures !isFormOpen && editingQuotation == None && !isPreviewOpen && previewQuotation == None
      ensures formData == DefaultQuotation(today) && items == [DEFAULT_ITEM]
      ensures enableGst && !enableDiscount
    {
      quotations, searchQuery, statusFilter := [], "", "all";
      isFormOpen, editingQuotation := false, None;
      isPreviewOpen, previewQuotation := false, None;
      formData, items := DefaultQuotation(today), [DEFAULT_ITEM];
      enableGst, enableDiscount := true, false;
    }

    /** The effect that runs `calculateTotals` whenever the lines, the discount
        or the GST settings change. */
    method RecalculateTotals()
      modifies this`formData
      ensures formData == old(formData).(pricing := WithTotals(old(formData).pricing,
                              CalculateTotals(items, old(formData).pricing, enableGst, enableDiscount)))
      ensures PricingConsistent(formData.pricing) && formData.pricing.subtotal == Subtotal(items)
    {
      TotalsConsistent(items, formData.pricing, enableGst, enableDiscount);
      formData := formData.(pricing := WithTotals(formData.pricing,
                              CalculateTotals(items, formData.pricing, enableGst, enableDiscount)));
    }

    /** The effect on `quotation_date` and `validity_days`. */
    method UpdateValidUntil()
      modifies this`formData
      ensures formData == WithValidUntil(old(formData))
    {
      if formData.date.Some? && formData.validityDays != 0 {
        formData := formData.(validUntil := Some(formData.date.value + formData.validityDays));
      }
    }

    method HandleAddItem()
      modifies this`items
      ensures items == AddItem(old(items))
    {
      items := AddItem(items);
    }

    method HandleRemoveItem(index: int)
      modifies this`items
      ensures items == RemoveItem(old(items), index)
      ensures |old(items)| >= 1 ==> |items| >= 1
    {
      if |items| >= 1 {
        RemoveItemFacts(items, index);
      }
      items := RemoveItem(items, index);
    }

    method HandleItemChange(index: int, change: ItemChange)
      requires 0 <= index < |items|
      modifies this`items
      ensures items == ChangeItem(old(items), index, change)
    {
      items := ChangeItem(items, index, change);
    }

    method HandleSelectPreset(index: int, preset: Preset)
      requires 0 <= index < |items|
      modifies this`items
      ensures items == SelectPreset(old(items), index, preset)
    {
      items := SelectPreset(items, index, preset);
    }

    /** `handleNewQuotation`. `number` is what the numbering call returned; on
        failure only the editing quotation is cleared. */
    method HandleNewQuotation(number: Result<string, ServiceError>, today: int)
      modifies this`editingQuotation, this`formData, this`items, this`enableGst,
               this`enableDiscount, this`isFormOpen
      ensures editingQuotation == None
      ensures number.Failure? ==>
        formData == old(formData) && items == old(items) && enableGst == old(enableGst)
        && enableDiscount == old(enableDiscount) && isFormOpen == old(isFormOpen)
      ensures number.Success? ==>
        formData == DefaultQuotation(today).(number := number.value)
        && items == [DEFAULT_ITEM] && enableGst && !enableDiscount && isFormOpen
    {
      editingQuotation := None;
      if number.Success? {
        formData := DefaultQuotation(today).(number := number.value);
        items := [DEFAULT_ITEM];
        enableGst, enableDiscount := true, false;
        isFormOpen := true;
      }
    }

    /** `handleEditQuotation`: GST is switched on exactly when the quotation
        charged some, the discount exactly when it gave some. */
    method HandleEditQuotation(q: Quotation)
      modifies this`editingQuotation, this`formData, this`items, this`enableGst,
               this`enableDiscount, this`isFormOpen
      ensures editingQuotation == Some(q) && formData == q && isFormOpen
      ensures items == if q.items.Some? then q.items.value else [DEFAULT_ITEM]
      ensures enableGst <==> q.pricing.gstAmount > 0.0
      ensures enableDiscount <==> q.pricing.discountAmount > 0.0
    {
      editingQuotation := Some(q);
      formData := q;
      items := q.items.GetOr([DEFAULT_ITEM]);
      enableGst := q.pricing.gstAmount > 0.0;
      enableDiscount := q.pricing.discountAmount > 0.0;
      isFormOpen := true;
    }

    /** `handleSaveQuotation`: updates the quotation being edited when it has an
        id, creates one otherwise, and closes the form on success. */
    method HandleSaveQuotation(db: BillingStore, newId: string, faults: StoreFaults)
      returns (r: Result<(), ServiceError>)
      requires db.Valid() && newId !in db.quotations
      modifies this`isFormOpen, db
      ensures db.Valid()
      ensures isFormOpen == (old(isFormOpen) && r.Failure?)
      ensures db.invoices == old(db.invoices) && db.invoiceItems == old(db.invoiceItems) && db.settings == old(db.settings)
      ensures var editId := if editingQuotation.Some? then editingQuotation.value.id else None;
        var form := formData;
        if editId.Some? && editId.value != "" then
          db.quotations == (if IsUuid(editId.value) && !faults.header
                            then UpdatedRows(old(db.quotations), editId.value, h => PatchQuotation(h, QuotationForm(form)))
                            else old(db.quotations))
          && r == UpdateOutcome(editId.value, editId.value in old(db.quotations), items, faults)
          && db.quotationItems == LinesAfterUpdate(old(db.quotationItems), editId.value, editId.value in old(db.quotations), items, faults)
        else
          var stored := ClientValid(form.client, db.isEmail) && AllItemsValid(items) && !faults.header;
          db.quotations == (if stored then old(db.quotations)[newId := StoredQuotation(form, newId)]
                            else old(db.quotations))
          && (r.Success? <==> stored && !(|items| > 0 && faults.insertItems))
          && db.quotationItems == (if stored && |items| > 0 && !faults.insertItems
                             then old(db.quotationItems)[newId := NumberedItems(items)] else old(db.quotationItems))
    {
      var editId := if editingQuotation.Some? then editingQuotation.value.id else None;
      if editId.Some? && editId.value != "" {
        r := db.UpdateQuotation(editId.value, QuotationForm(formData), items, faults);
      } else {
        var created := db.CreateQuotation(formData, items, newId, faults);
        r := if created.Success? then Success(()) else Failure(created.error);
      }
      if r.Success? {
        isFormOpen := false;
      }
    }

    /** `handleDeleteQuotation`: asks first; drops the quotation from the list
        only once the store has deleted it. */
    method HandleDeleteQuotation(db: BillingStore, id: string, confirmed: bool, fault: bool)
      requires db.Valid()
      modifies this`quotations, db
      ensures db.Valid()
      ensures !confirmed ==> quotations == old(quotations) && db.quotations == old(db.quotations)
                             && db.quotationItems == old(db.quotationItems)
      ensures confirmed ==> quotations == (if IsUuid(id) && !fault then WithoutId(old(quotations), id)
                                           else old(quotations))
      ensures confirmed && IsUuid(id) && !fault ==>
                db.quotations == old(db.quotations) - {id} && db.quotationItems == old(db.quotationItems) - {id}
      ensures confirmed && (!IsUuid(id) || fault) ==>
                db.quotations == old(db.quotations) && db.quotationItems == old(db.quotationItems)
      ensures db.settings == old(db.settings)
      ensures db.invoices == old(db.invoices) && db.invoiceItems == old(db.invoiceItems)
    {
      if !confirmed {
        return;
      }
      var r := db.DeleteQuotation(id, fault);
      if r.Success? {
        quotations := WithoutId(quotations, id);
      }
    }

    /** `handleStatusChange`: a header-only update with no lines; the list is
        changed only once the store accepted it. */
    method HandleStatusChange(db: BillingStore, id: string, newStatus: QuotationStatus, faults: StoreFaults)
      requires db.Valid()
      modifies this`quotations, db
      ensures db.Valid()
      ensures db.quotationItems == old(db.quotationItems)
      ensures db.invoices == old(db.invoices) && db.invoiceItems == old(db.invoiceItems) && db.settings == old(db.settings)
      ensures quotations == (if IsUuid(id) && !faults.header then WithStatus(old(quotations), id, newStatus)
                             else old(quotations))
      ensures db.quotations == (if IsUuid(id) && !faults.header
                                then UpdatedRows(old(db.quotations), id, h => PatchQuotation(h, QuotationStatusOnly(newStatus)))
                                else old(db.quotations))
    {
      var r := db.UpdateQuotation(id, QuotationStatusOnly(newStatus), [], faults);
      if r.Success? {
        quotations := WithStatus(quotations, id, newStatus);
      }
    }

    /** `handlePreview`. */
    method HandlePreview(q: Quotation)
      modifies this`previewQuotation, this`isPreviewOpen
      ensures previewQuotation == Some(q) && isPreviewOpen
    {
      previewQuotation, isPreviewOpen := Some(q), true;
    }
  }
}
