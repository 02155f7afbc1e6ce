/** The invoice editor of the admin area: the list with its search and status
    filter, the stats cards, the edit form with its lines and totals, and the
    payment dialog. The component's state is the class `InvoicesManager`; each
    handler is a method that replaces the state fields the handler sets. */
module Invoices {
  import opened Wrappers
  import opened Text
  import opened BillingTypes
  import opened BillingForm
  import opened BillingService

  // ---------------------------------------------------------------------
  // Search and filter
  // ---------------------------------------------------------------------

  /** The lower-cased query occurs in the lower-cased client name, business
      name or invoice number. */
  predicate MatchesSearch(inv: Invoice, query: string) {
    var q := ToLower(query);
    Contains(ToLower(inv.client.name), q) || Contains(ToLower(inv.client.businessName), q)
    || Contains(ToLower(inv.number), q)
  }

  predicate MatchesStatus(inv: Invoice, statusFilter: string) {
    statusFilter == "all" || InvoiceStatusName(inv.status) == statusFilter
  }

  /** `filteredInvoices`. */
  function FilterInvoices(list: seq<Invoice>, query: string, statusFilter: string): seq<Invoice>
    decreases |list|
  {
    if list == [] then []
    else
      var rest := FilterInvoices(list[1..], query, statusFilter);
      if MatchesSearch(list[0], query) && MatchesStatus(list[0], statusFilter) then [list[0]] + rest else rest
  }

  /** An invoice is listed exactly when it is in the list and matches both the
      search and the status filter; nothing is added. */
  lemma {:induction false} FilterInvoicesMembers(list: seq<Invoice>, query: string, statusFilter: string)
    ensures |FilterInvoices(list, query, statusFilter)| <= |list|
    ensures forall inv :: inv in FilterInvoices(list, query, statusFilter) <==>
      inv in list && MatchesSearch(inv, query) && MatchesStatus(inv, statusFilter)
    decreases |list|
  {
    if list != [] {
      FilterInvoicesMembers(list[1..], query, statusFilter);
      assert list == [list[0]] + list[1..];
    }
  }

  /** With an empty query and the `all` filter every invoice is listed. */
  lemma {:induction false} FilterInvoicesAll(list: seq<Invoice>)
    ensures FilterInvoices(list, "", "all") == list
    decreases |list|
  {
    if list != [] {
      FilterInvoicesAll(list[1..]);
      assert ToLower("") == "";
      assert Contains(ToLower(list[0].client.name), "");
      assert list == [list[0]] + list[1..];
    }
  }

  // ---------------------------------------------------------------------
  // Stats
  // ---------------------------------------------------------------------

  function CountStatus(list: seq<Invoice>, s: InvoiceStatus): nat
    decreases |list|
  {
    if list == [] then 0 else (if list[0].status == s then 1 else 0) + CountStatus(list[1..], s)
  }

  /** The grand totals of the invoices with status `s`. */
  function SumGrandTotal(list: seq<Invoice>, s: InvoiceStatus): real
    decreases |list|
  {
    if list == [] then 0.0
    else (if list[0].status == s then list[0].pricing.grandTotal else 0.0) + SumGrandTotal(list[1..], s)
  }

  /** The balances due of the invoices with status `s`. */
  function SumBalanceDue(list: seq<Invoice>, s: InvoiceStatus): real
    decreases |list|
  {
    if list == [] then 0.0
    else (if list[0].status == s then list[0].balanceDue else 0.0) + SumBalanceDue(list[1..], s)
  }

  datatype InvoiceStats = InvoiceStats(total: nat, pending: nat, paid: nat, overdue: nat,
                                       totalRevenue: real, pendingAmount: real)

  /** `stats`: revenue is what the paid invoices total, the pending amount what
      the pending ones still owe. */
  function Stats(list: seq<Invoice>): InvoiceStats {
    InvoiceStats(|list|, CountStatus(list, Pending), CountStatus(list, Paid), CountStatus(list, Overdue),
                 SumGrandTotal(list, Paid), SumBalanceDue(list, Pending))
  }

  /** Every invoice has exactly one status, so the per-status counts add up to
      the number of invoices, and the three counted cards never exceed it. */
  lemma {:induction false} StatusCountsPartition(list: seq<Invoice>)
    ensures CountStatus(list, InvoiceStatus.Draft) + CountStatus(list, InvoiceStatus.Sent)
          + CountStatus(list, Paid) + CountStatus(list, Pending)
          + CountStatus(list, Overdue) + CountStatus(list, Cancelled) == |list|
    ensures Stats(list).pending + Stats(list).paid + Stats(list).overdue <= Stats(list).total
    decreases |list|
  {
    if list != [] {
      StatusCountsPartition(list[1..]);
    }
  }

  /** Without paid invoices there is no revenue; without pending ones nothing is pending. */
  lemma {:induction false} StatsEmptyStatus(list: seq<Invoice>)
    ensures CountStatus(list, Paid) == 0 ==> Stats(list).totalRevenue == 0.0
    ensures CountStatus(list, Pending) == 0 ==> Stats(list).pendingAmount == 0.0
    decreases |list|
  {
    if list != [] {
      StatsEmptyStatus(list[1..]);
    }
  }

  // ---------------------------------------------------------------------
  // Payments, deletion and status changes on the in-memory list
  // ---------------------------------------------------------------------

  /** `handleSavePayment` on one invoice matching the selected one: the new
      amounts come from the selected invoice; the balance is clamped at zero
      and the status becomes paid or pending. */
  function PaidInvoice(inv: Invoice, selected: Invoice, payment: real, now: int): Invoice {
    var newPaid := selected.amountPaid + payment;
    var newBalance := selected.pricing.grandTotal - newPaid;
    var newStatus := if newBalance <= 0.0 then InvoiceStatus.Paid else Pending;
    inv.(amountPaid := newPaid,
         balanceDue := if newBalance > 0.0 then newBalance else 0.0,
         status := newStatus,
         paidAt := if newStatus == InvoiceStatus.Paid then Some(now) else inv.paidAt)
  }

  /** The `invoices.map(…)` of `handleSavePayment`, matching by id. */
  function RecordPayment(list: seq<Invoice>, selected: Invoice, payment: real, now: int): seq<Invoice> {
    seq(|list|, i requires 0 <= i < |list| =>
      if list[i].id == selected.id then PaidInvoice(list[i], selected, payment, now) else list[i])
  }

  /** What a recorded payment does to each invoice of the list. */
  lemma RecordPaymentFacts(list: seq<Invoice>, selected: Invoice, payment: real, now: int, i: int)
    requires 0 <= i < |list|
    ensures var r := RecordPayment(list, selected, payment, now);
      var paid := selected.amountPaid + payment;
      var owed := selected.pricing.grandTotal - paid;
      |r| == |list|
      && (list[i].id != selected.id ==> r[i] == list[i])
      && (list[i].id == selected.id ==>
            r[i].amountPaid == paid
            && r[i].balanceDue >= 0.0
            && (r[i].balanceDue == owed || (r[i].balanceDue == 0.0 && owed <= 0.0))
            && (r[i].status == InvoiceStatus.Paid <==> owed <= 0.0)
            && (r[i].status != InvoiceStatus.Paid ==> r[i].status == Pending)
            && (r[i].paidAt == if owed <= 0.0 then Some(now) else list[i].paidAt)
            && r[i].pricing == list[i].pricing && r[i].client == list[i].client)
  {
  }

  /** Paying exactly the balance the dialog proposes settles a consistent invoice. */
  lemma FullPaymentSettles(list: seq<Invoice>, selected: Invoice, now: int, i: int)
    requires 0 <= i < |list| && list[i].id == selected.id && BalanceConsistent(selected)
    ensures var r := RecordPayment(list, selected, selected.balanceDue, now);
      r[i].status == InvoiceStatus.Paid && r[i].balanceDue == 0.0 && r[i].paidAt == Some(now)
      && r[i].amountPaid == selected.pricing.grandTotal
  {
  }

  /** A part payment keeps the balance consistent with the grand total. */
  lemma PartPaymentConsistent(list: seq<Invoice>, selected: Invoice, payment: real, now: int, i: int)
    requires 0 <= i < |list| && list[i].id == selected.id
    requires list[i].pricing.grandTotal == selected.pricing.grandTotal
    requires selected.amountPaid + payment < selected.pricing.grandTotal
    ensures var r := RecordPayment(list, selected, payment, now);
      BalanceConsistent(r[i]) && r[i].status == Pending
  {
  }

  /** `invoices.filter(inv => inv.id !== id)`. */
  function WithoutId(list: seq<Invoice>, id: string): seq<Invoice>
    decreases |list|
  {
    if list == [] then []
    else (if list[0].id == Some(id) then [] else [list[0]]) + WithoutId(list[1..], id)
  }

  /** Deleting from the list removes every invoice with that id and keeps the rest. */
  lemma {:induction false} WithoutIdMembers(list: seq<Invoice>, id: string)
    ensures forall inv :: inv in WithoutId(list, id) <==> inv in list && inv.id != Some(id)
    decreases |list|
  {
    if list != [] {
      WithoutIdMembers(list[1..], id);
      assert list == [list[0]] + list[1..];
    }
  }

  /** `invoices.map(inv => inv.id === id ? { ...inv, status } : inv)`. */
  function WithStatus(list: seq<Invoice>, id: string, s: InvoiceStatus): (r: seq<Invoice>)
    ensures |r| == |list|
    ensures forall i :: 0 <= i < |list| ==>
      r[i] == if list[i].id == Some(id) then list[i].(status := s) else list[i]
  {
    seq(|list|, i requires 0 <= i < |list| => if list[i].id == Some(id) then list[i].(status := s) else list[i])
  }

  // ---------------------------------------------------------------------
  // The component
  // ---------------------------------------------------------------------

  class InvoicesManager {
    var invoices: seq<Invoice>
    var searchQuery: string
    var statusFilter: string
    var isFormOpen: bool
    var editingInvoice: Option<Invoice>
    var isPaymentOpen: bool
    var paymentInvoice: Option<Invoice>
    var paymentAmount: real
    var formData: Invoice
    var items: seq<Item>
    var enableGst: bool
    var enableDiscount: bool

    /** The initial state; `today` is the date `DEFAULT_INVOICE` was built on. */
    constructor (today: int)
      ensures invoices == [] && searchQuery == "" && statusFilter == "all"
      ensures !isFormOpen && editingInvoice == None
      ensures !isPaymentOpen && paymentInvoice == None && paymentAmount == 0.0
      ensures formData == DefaultInvoice(today) && items == [DEFAULT_ITEM]
      ensures enableGst && !enableDiscount
    {
      invoices, searchQuery, statusFilter := [], "", "all";
      isFormOpen, editingInvoice := false, None;
      isPaymentOpen, paymentInvoice, paymentAmount := false, None, 0.0;
      formData, items := DefaultInvoice(today), [DEFAULT_ITEM];
      enableGst, enableDiscount := true, false;
    }

    /** The effect that runs `calculateTotals` whenever the lines, the discount,
        the GST settings or the amount paid change. */
    method RecalculateTotals()
      modifies this`formData
      ensures var t := CalculateTotals(items, old(formData).pricing, enableGst, enableDiscount);
        formData == old(formData).(pricing := WithTotals(old(formData).pricing, t),
                                   balanceDue := FormBalanceDue(t, old(formData).amountPaid))
      ensures PricingConsistent(formData.pricing) && BalanceConsistent(formData)
      ensures formData.pricing.subtotal == Subtotal(items)
    {
      var t := CalculateTotals(items, formData.pricing, enableGst, enableDiscount);
      TotalsConsistent(items, formData.pricing, enableGst, enableDiscount);
      formData := formData.(pricing := WithTotals(formData.pricing, t),
                            balanceDue := FormBalanceDue(t, formData.amountPaid));
    }

    method HandleAddItem()
      modifies this`items
      ensures items == AddItem(old(items))
    {
      items := AddItem(items);
    }

    method HandleRemoveItem(index: int)
      modifies this`items
      ensures items == RemoveItem(old(items), index)
      ensures |old(items)| >= 1 ==> |items| >= 1
    {
      if |items| >= 1 {
        RemoveItemFacts(items, index);
      }
      items := RemoveItem(items, index);
    }

    method HandleItemChange(index: int, change: ItemChange)
      requires 0 <= index < |items|
      modifies this`items
      ensures items == ChangeItem(old(items), index, change)
    {
      items := ChangeItem(items, index, change);
    }

    method HandleSelectPreset(index: int, preset: Preset)
      requires 0 <= index < |items|
      modifies this`items
      ensures items == SelectPreset(old(items), index, preset)
    {
      items := SelectPreset(items, index, preset);
    }

    /** `handleNewInvoice`. `number` is what the numbering call returned; on
        failure only the editing invoice is cleared. The due date is 15 days
        after `today`. */
    method HandleNewInvoice(number: Result<string, ServiceError>, today: int)
      modifies this`editingInvoice, this`formData, this`items, this`enableGst,
               this`enableDiscount, this`isFormOpen
      ensures editingInvoice == None
      ensures number.Failure? ==>
        formData == old(formData) && items == old(items) && enableGst == old(enableGst)
        && enableDiscount == old(enableDiscount) && isFormOpen == old(isFormOpen)
      ensures number.Success? ==>
        formData == DefaultInvoice(today).(number := number.value, dueDate := Some(today + 15))
        && items == [DEFAULT_ITEM] && enableGst && !enableDiscount && isFormOpen
    {
      editingInvoice := None;
      if number.Success? {
        formData := DefaultInvoice(today).(number := number.value, dueDate := Some(today + 15));
        items := [DEFAULT_ITEM];
        enableGst, enableDiscount := true, false;
        isFormOpen := true;
      }
    }

    /** `handleEditInvoice`: GST is switched on exactly when the invoice charged
        some, the discount exactly when it gave some. An invoice with no `items`
        array gets one default line; an empty array is kept as it is. */
    method HandleEditInvoice(inv: Invoice)
      modifies this`editingInvoice, this`formData, this`items, this`enableGst,
               this`enableDiscount, this`isFormOpen
      ensures editingInvoice == Some(inv) && formData == inv && isFormOpen
      ensures items == if inv.items.Some? then inv.items.value else [DEFAULT_ITEM]
      ensures enableGst <==> inv.pricing.gstAmount > 0.0
      ensures enableDiscount <==> inv.pricing.discountAmount > 0.0
    {
      editingInvoice := Some(inv);
      formData := inv;
      items := inv.items.GetOr([DEFAULT_ITEM]);
      enableGst := inv.pricing.gstAmount > 0.0;
      enableDiscount := inv.pricing.discountAmount > 0.0;
      isFormOpen := true;
    }

    /** `handleSaveInvoice`: updates the invoice being edited when it has an id,
        creates one otherwise, and closes the form on success. */
    method HandleSaveInvoice(db: BillingStore, newId: string, faults: StoreFaults)
      returns (r: Result<(), ServiceError>)
      requires db.Valid() && newId !in db.invoices
      modifies this`isFormOpen, db
      ensures db.Valid()
      ensures isFormOpen == (old(isFormOpen) && r.Failure?)
      ensures db.quotations == old(db.quotations) && db.quotationItems == old(db.quotationItems) && db.settings == old(db.settings)
      ensures var editId := if editingInvoice.Some? then editingInvoice.value.id else None;
        var form := formData;
        if editId.Some? && editId.value != "" then
          db.invoices == (if IsUuid(editId.value) && !faults.header
                          then UpdatedRows(old(db.invoices), editId.value, h => PatchInvoice(h, InvoiceForm(form)))
                          else old(db.invoices))
          && r == UpdateOutcome(editId.value, editId.value in old(db.invoices), items, faults)
          && db.invoiceItems == LinesAfterUpdate(old(db.invoiceItems), editId.value, editId.value in old(db.invoices), items, faults)
        else
          var stored := ClientValid(form.client, db.isEmail) && AllItemsValid(items) && !faults.header;
          db.invoices == (if stored then old(db.invoices)[newId := StoredInvoice(form, newId)] else old(db.invoices))
          && (r.Success? <==> stored && !(|items| > 0 && faults.insertItems))
          && db.invoiceItems == (if stored && |items| > 0 && !faults.insertItems
                             then old(db.invoiceItems)[newId := NumberedItems(items)] else old(db.invoiceItems))
    {
      var editId := if editingInvoice.Some? then editingInvoice.value.id else None;
      if editId.Some? && editId.value != "" {
        r := db.UpdateInvoice(editId.value, InvoiceForm(formData), items, faults);
      } else {
        var created := db.CreateInvoice(formData, items, newId, faults);
        r := if created.Success? then Success(()) else Failure(created.error);
      }
      if r.Success? {
        isFormOpen := false;
      }
    }

    /** `handleDeleteInvoice`: asks first; drops the invoice from the list only
        once the store has deleted it. */
    method HandleDeleteInvoice(db: BillingStore, id: string, confirmed: bool, fault: bool)
      requires db.Valid()
      modifies this`invoices, db
      ensures db.Valid()
      ensures !confirmed ==> invoices == old(invoices) && db.invoices == old(db.invoices)
                             && db.invoiceItems == old(db.invoiceItems)
      ensures confirmed ==> invoices == (if IsUuid(id) && !fault then WithoutId(old(invoices), id)
                                         else old(invoices))
      ensures confirmed && IsUuid(id) && !fault ==>
                db.invoices == old(db.invoices) - {id} && db.invoiceItems == old(db.invoiceItems) - {id}
      ensures confirmed && (!IsUuid(id) || fault) ==>
                db.invoices == old(db.invoices) && db.invoiceItems == old(db.invoiceItems)
      ensures db.settings == old(db.settings)
      ensures db.quotations == old(db.quotations) && db.quotationItems == old(db.quotationItems)
    {
      if !confirmed {
        return;
      }
      var r := db.DeleteInvoice(id, fault);
      if r.Success? {
        invoices := WithoutId(invoices, id);
      }
    }

    /** `handleStatusChange`: a header-only update with no lines; the list is
        changed only once the store accepted it. */
    method HandleStatusChange(db: BillingStore, id: string, newStatus: InvoiceStatus, faults: StoreFaults)
      requires db.Valid()
      modifies this`invoices, db
      ensures db.Valid()
      ensures db.invoiceItems == old(db.invoiceItems)
      ensures db.quotations == old(db.quotations) && db.quotationItems == old(db.quotationItems) && db.settings == old(db.settings)
      ensures invoices == (if IsUuid(id) && !faults.header then WithStatus(old(invoices), id, newStatus)
                           else old(invoices))
      ensures db.invoices == (if IsUuid(id) && !faults.header
                              then UpdatedRows(old(db.invoices), id, h => PatchInvoice(h, InvoiceStatusOnly(newStatus)))
                              else old(db.invoices))
    {
      var r := db.UpdateInvoice(id, InvoiceStatusOnly(newStatus), [], faults);
      if r.Success? {
        invoices := WithStatus(invoices, id, newStatus);
      }
    }

    /** `handleRecordPayment`: the dialog opens proposing the whole balance due. */
    method HandleRecordPayment(inv: Invoice)
      modifies this`paymentInvoice, this`paymentAmount, this`isPaymentOpen
      ensures paymentInvoice == Some(inv) && paymentAmount == inv.balanceDue && isPaymentOpen
    {
      paymentInvoice, paymentAmount, isPaymentOpen := Some(inv), inv.balanceDue, true;
    }

    /** The amount field of the payment dialog (`parseFloat(v) || 0`). */
    method SetPaymentAmount(amount: real)
      modifies this`paymentAmount
      ensures paymentAmount == amount
    {
      paymentAmount := amount;
    }

    /** `handleSavePayment`: records the payment on the in-memory list only;
        nothing is sent to the store. */
    method HandleSavePayment(now: int)
      modifies this`invoices, this`isPaymentOpen
      ensures old(paymentInvoice).None? ==> invoices == old(invoices) && isPaymentOpen == old(isPaymentOpen)
      ensures old(paymentInvoice).Some? ==>
        invoices == RecordPayment(old(invoices), paymentInvoice.value, paymentAmount, now) && !isPaymentOpen
    {
      if paymentInvoice.None? {
        return;
      }
      invoices := RecordPayment(invoices, paymentInvoice.value, paymentAmount, now);
      isPaymentOpen := false;
    }
  }
}
