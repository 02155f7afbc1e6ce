/** The billing service: validation of client details and lines, the UUID
    guard, and create / update / delete of quotations and invoices against the
    hosted store, which is modelled as an in-memory class holding one map of
    headers and one map from parent id to its lines per document kind. A store
    call that fails is chosen by a `StoreFaults` argument. */
module BillingService {
  import opened Wrappers
  import opened Text
  import opened BillingTypes

  datatype ServiceError =
    | ValidationError        // `Validation error: …` from the client schema
    | ItemValidationError    // `Item validation error: …` from the item schema
    | InvalidId              // `Invalid quotation ID` / `Invalid invoice ID`
    | StoreError             // an error returned by the store

  /** Which of a call's store requests fail. */
  datatype StoreFaults = StoreFaults(header: bool, deleteItems: bool, insertItems: bool)

  // ---------------------------------------------------------------------
  // Validation
  // ---------------------------------------------------------------------

  /** `clientInfoSchema`. `isEmail` is the schema library's e-mail check. */
  predicate ClientValid(c: Client, isEmail: string -> bool) {
    1 <= |c.name| <= 200
    && |c.businessName| <= 200
    && |c.phone| <= 20
    && (c.email == "" || (isEmail(c.email) && |c.email| <= 255))
    && |c.address| <= 500
  }

  predicate IsWhole(x: real) {
    x.Floor as real == x
  }

  /** `itemSchema`. A null description is not a string and fails it. */
  predicate ItemValid(it: Item) {
    1 <= |it.serviceName| <= 200
    && it.description.Some? && |it.description.value| <= 1000
    && IsWhole(it.quantity) && 0.0 < it.quantity <= 10000.0
    && 0.0 <= it.rate <= 100000000.0
    && it.amount >= 0.0
    && it.sortOrder >= 0
  }

  predicate AllItemsValid(items: seq<Item>) {
    forall i :: 0 <= i < |items| ==> ItemValid(items[i])
  }

  /** The `for … of` loop over the lines: the index of the first line the
      schema rejects, if any. */
  method FindInvalidItem(items: seq<Item>) returns (k: Option<nat>)
    ensures k.None? <==> AllItemsValid(items)
    ensures k.Some? ==> k.value < |items| && !ItemValid(items[k.value])
                        && forall i :: 0 <= i < k.value ==> ItemValid(items[i])
  {
    var i := 0;
    while i < |items|
      invariant 0 <= i <= |items|
      invariant forall j :: 0 <= j < i ==> ItemValid(items[j])
    {
      if !ItemValid(items[i]) {
        return Some(i);
      }
      i := i + 1;
    }
    return None;
  }

  predicate IsHexDigit(c: char) {
    ('0' <= c <= '9') || ('a' <= c <= 'f') || ('A' <= c <= 'F')
  }

  /** The id pattern `^[0-9a-f]{8}-[0-9a-f]{4}-[0-9a-f]{4}-[0-9a-f]{4}-[0-9a-f]{12}$`
      with the `i` flag: 36 characters, dashes at 8, 13, 18 and 23, hex digits
      of either case elsewhere. The empty id fails it. */
  predicate IsUuid(id: string) {
    |id| == 36
    && forall i :: 0 <= i < |id| ==>
         if i == 8 || i == 13 || i == 18 || i == 23 then id[i] == '-' else IsHexDigit(id[i])
  }

  /** The guard ignores case: an id passes exactly when its lower-case form does. */
  lemma UuidIgnoresCase(id: string)
    ensures IsUuid(id) <==> IsUuid(ToLower(id))
  {
    var low := ToLower(id);
    if IsUuid(low) {
      forall i | 0 <= i < |id|
        ensures if i == 8 || i == 13 || i == 18 || i == 23 then id[i] == '-' else IsHexDigit(id[i])
      {
        assert low[i] == LowerChar(id[i]);
      }
    }
    if IsUuid(id) {
      forall i | 0 <= i < |low|
        ensures if i == 8 || i == 13 || i == 18 || i == 23 then low[i] == '-' else IsHexDigit(low[i])
      {
        assert low[i] == LowerChar(id[i]);
      }
    }
  }

  // ---------------------------------------------------------------------
  // What the store receives
  // ---------------------------------------------------------------------

  /** The lines sent on create: each as given, with `sort_order` its position. */
  function NumberedItems(items: seq<Item>): (r: seq<Item>)
    ensures |r| == |items|
    ensures forall i :: 0 <= i < |items| ==> r[i] == items[i].(sortOrder := i)
  {
    seq(|items|, i requires 0 <= i < |items| => items[i].(sortOrder := i))
  }

  /** The lines sent on update: the five columns copied, a missing or empty
      description sent as `''`, and `sort_order` the position. */
  function ItemsForUpdate(items: seq<Item>): (r: seq<Item>)
    ensures |r| == |items|
    ensures forall i :: 0 <= i < |items| ==>
      r[i] == Item(items[i].serviceName, Some(items[i].description.GetOr("")),
                   items[i].quantity, items[i].rate, items[i].amount, i)
  {
    seq(|items|, i requires 0 <= i < |items| =>
      Item(items[i].serviceName, Some(items[i].description.GetOr("")),
           items[i].quantity, items[i].rate, items[i].amount, i))
  }

  /** Saving lines that were read back from an update stores them unchanged,
      so repeating an update leaves the same lines. */
  lemma ItemsForUpdateIdempotent(items: seq<Item>)
    ensures ItemsForUpdate(ItemsForUpdate(items)) == ItemsForUpdate(items)
  {
  }

  /** The lines an update stores keep the order of the request and agree with
      the lines created from the same request, up to the description default. */
  lemma ItemsForUpdateMatchesCreate(items: seq<Item>)
    requires AllItemsValid(items)
    ensures ItemsForUpdate(items) == NumberedItems(items)
  {
  }

  /** The header row a create stores: the payload with the new id and without
      its form-only `items` array. */
  function StoredQuotation(q: Quotation, id: string): Quotation {
    q.(id := Some(id), items := None)
  }

  function StoredInvoice(inv: Invoice, id: string): Invoice {
    inv.(id := Some(id), items := None)
  }

  /** The two update payloads the editors send: the whole form, or `{ status }`. */
  datatype QuotationPatch = QuotationForm(q: Quotation) | QuotationStatusOnly(status: QuotationStatus)
  datatype InvoicePatch = InvoiceForm(inv: Invoice) | InvoiceStatusOnly(status: InvoiceStatus)

  function PatchQuotation(h: Quotation, patch: QuotationPatch): Quotation {
    match patch
    case QuotationForm(q) => q.(id := h.id, items := None)
    case QuotationStatusOnly(s) => h.(status := s)
  }

  function PatchInvoice(h: Invoice, patch: InvoicePatch): Invoice {
    match patch
    case InvoiceForm(inv) => inv.(id := h.id, items := None)
    case InvoiceStatusOnly(s) => h.(status := s)
  }

  /** `.update(updates).eq('id', id)`: no matching row means nothing changes. */
  function UpdatedRows<H>(rows: map<string, H>, id: string, f: H -> H): map<string, H> {
    if id in rows then rows[id := f(rows[id])] else rows
  }

  /** A status-only patch changes the status of the matching row and nothing else. */
  lemma StatusPatchOnlyStatus(rows: map<string, Quotation>, id: string, s: QuotationStatus)
    ensures var r := UpdatedRows(rows, id, h => PatchQuotation(h, QuotationStatusOnly(s)));
      r.Keys == rows.Keys
      && (forall k :: k in rows && k != id ==> r[k] == rows[k])
      && (id in rows ==> r[id] == rows[id].(status := s))
  {
  }

  /** What an update answers. The id format is checked first, then the
      header write; a non-empty line list then needs the delete and the
      insert to succeed, and the insert fails when no header `id` exists
      (the foreign key). `present` says whether the header is stored. */
  function UpdateOutcome(id: string, present: bool, items: seq<Item>, faults: StoreFaults): (r: Result<(), ServiceError>)
    ensures r.Success? <==>
      IsUuid(id) && !faults.header
      && (|items| > 0 ==> !faults.deleteItems && !faults.insertItems && present)
    ensures r == Failure(InvalidId) <==> !IsUuid(id)
    ensures r.Failure? && IsUuid(id) ==> r.error == StoreError
  {
    if !IsUuid(id) then Failure(InvalidId)
    else if faults.header then Failure(StoreError)
    else if |items| == 0 then Success(())
    else if faults.deleteItems || faults.insertItems || !present then Failure(StoreError)
    else Success(())
  }

  /** The stored lines, by parent, after an update of header `id`: only that
      parent's lines can change. They are replaced once the delete went
      through, or are left with none when the insert then failed. */
  function LinesAfterUpdate(lines: map<string, seq<Item>>, id: string, present: bool, items: seq<Item>,
                            faults: StoreFaults): (r: map<string, seq<Item>>)
    ensures r.Keys <= lines.Keys + {id}
    ensures forall k :: k in lines && k != id ==> k in r && r[k] == lines[k]
  {
    if !IsUuid(id) || faults.header || |items| == 0 || faults.deleteItems then lines
    else if faults.insertItems || !present then lines - {id}
    else lines[id := ItemsForUpdate(items)]
  }

  /** A successful update leaves the parent's lines exactly the list sent
      (mapped as `ItemsForUpdate`), or untouched when the list was empty; a
      failed one leaves them as they were or removed. */
  lemma UpdateOutcomeLines(lines: map<string, seq<Item>>, id: string, present: bool, items: seq<Item>,
                           faults: StoreFaults)
    ensures var r := UpdateOutcome(id, present, items, faults);
      var after := LinesAfterUpdate(lines, id, present, items, faults);
      (r.Success? && |items| > 0 ==> id in after && after[id] == ItemsForUpdate(items))
      && (r.Success? && |items| == 0 ==> after == lines)
      && (r.Failure? ==> after == lines || after == lines - {id})
  {
  }

  /** Repeating a successful update leaves the same lines. */
  lemma UpdateTwiceSameLines(lines: map<string, seq<Item>>, id: string, items: seq<Item>, faults: StoreFaults)
    requires UpdateOutcome(id, true, items, faults).Success?
    ensures var once := LinesAfterUpdate(lines, id, true, items, faults);
      LinesAfterUpdate(once, id, true, items, faults) == once
  {
  }

  // ---------------------------------------------------------------------
  // The store
  // ---------------------------------------------------------------------

  class BillingStore {
    var quotations: map<string, Quotation>
    var quotationItems: map<string, seq<Item>>
    var invoices: map<string, Invoice>
    var invoiceItems: map<string, seq<Item>>
    var settings: map<string, BusinessSettings>
    /** The schema library's e-mail check. */
    const isEmail: string -> bool

    /** Every line belongs to a stored header (the foreign key). */
    ghost predicate Valid()
      reads this
    {
      quotationItems.Keys <= quotations.Keys && invoiceItems.Keys <= invoices.Keys
    }

    constructor (isEmail: string -> bool)
      ensures Valid() && this.isEmail == isEmail
      ensures quotations == map[] && quotationItems == map[]
      ensures invoices == map[] && invoiceItems == map[] && settings == map[]
    {
      this.isEmail := isEmail;
      quotations, quotationItems := map[], map[];
      invoices, invoiceItems := map[], map[];
      settings := map[];
    }

    /** The lines stored for a header, in order. */
    function QuotationLines(id: string): seq<Item>
      reads this
    {
      if id in quotationItems then quotationItems[id] else []
    }

    function InvoiceLines(id: string): seq<Item>
      reads this
    {
      if id in invoiceItems then invoiceItems[id] else []
    }

    /** `createQuotation`. The store picks the fresh id `newId`. Validation
        failures throw before any write; once the header is written, a failed
        line insert throws but leaves the header in place. */
    method CreateQuotation(quotation: Quotation, items: seq<Item>, newId: string, faults: StoreFaults)
      returns (r: Result<Quotation, ServiceError>)
      requires Valid() && newId !in quotations
      modifies this
      ensures Valid()
      ensures invoices == old(invoices) && invoiceItems == old(invoiceItems) && settings == old(settings)
      ensures !ClientValid(quotation.client, isEmail) ==>
        r == Failure(ValidationError) && quotations == old(quotations) && quotationItems == old(quotationItems)
      ensures ClientValid(quotation.client, isEmail) && !AllItemsValid(items) ==>
        r == Failure(ItemValidationError) && quotations == old(quotations) && quotationItems == old(quotationItems)
      ensures ClientValid(quotation.client, isEmail) && AllItemsValid(items) && faults.header ==>
        r == Failure(StoreError) && quotations == old(quotations) && quotationItems == old(quotationItems)
      ensures ClientValid(quotation.client, isEmail) && AllItemsValid(items) && !faults.header ==>
        quotations == old(quotations)[newId := StoredQuotation(quotation, newId)]
        && (if |items| > 0 && faults.insertItems
            then r == Failure(StoreError) && quotationItems == old(quotationItems)
            else r == Success(StoredQuotation(quotation, newId))
                 && quotationItems == (if |items| > 0 then old(quotationItems)[newId := NumberedItems(items)]
                                       else old(quotationItems)))
    {
      if !ClientValid(quotation.client, isEmail) {
        return Failure(ValidationError);
      }
      var bad := FindInvalidItem(items);
      if bad.Some? {
        return Failure(ItemValidationError);
      }
      if faults.header {
        return Failure(StoreError);
      }
      var created := StoredQuotation(quotation, newId);
      quotations := quotations[newId := created];
      if |items| > 0 {
        if faults.insertItems {
          return Failure(StoreError);
        }
        quotationItems := quotationItems[newId := NumberedItems(items)];
      }
      return Success(created);
    }

    /** `updateQuotation`. Only the id format is checked: neither the client
        details nor the lines are validated. An empty line list leaves the
        stored lines alone; otherwise they are deleted and the given ones
        inserted, so a failed insert leaves the header with no lines. */
    method UpdateQuotation(id: string, patch: QuotationPatch, items: seq<Item>, faults: StoreFaults)
      returns (r: Result<(), ServiceError>)
      requires Valid()
      modifies this
      ensures Valid()
      ensures invoices == old(invoices) && invoiceItems == old(invoiceItems) && settings == old(settings)
      ensures !IsUuid(id) || faults.header ==>
        r == Failure(if IsUuid(id) then StoreError else InvalidId)
        && quotations == old(quotations) && quotationItems == old(quotationItems)
      ensures IsUuid(id) && !faults.header ==>
        quotations == UpdatedRows(old(quotations), id, h => PatchQuotation(h, patch))
      ensures IsUuid(id) && !faults.header && |items| == 0 ==>
        r == Success(()) && quotationItems == old(quotationItems)
      ensures IsUuid(id) && !faults.header && |items| > 0 && faults.deleteItems ==>
        r == Failure(StoreError) && quotationItems == old(quotationItems)
      ensures IsUuid(id) && !faults.header && |items| > 0 && !faults.deleteItems ==>
        if faults.insertItems || id !in old(quotations)
        then r == Failure(StoreError) && quotationItems == old(quotationItems) - {id}
        else r == Success(()) && quotationItems == old(quotationItems)[id := ItemsForUpdate(items)]
      ensures r == UpdateOutcome(id, id in old(quotations), items, faults)
      ensures quotationItems == LinesAfterUpdate(old(quotationItems), id, id in old(quotations), items, faults)
    {
      if !IsUuid(id) {
        return Failure(InvalidId);
      }
      if faults.header {
        return Failure(StoreError);
      }
      quotations := UpdatedRows(quotations, id, h => PatchQuotation(h, patch));
      if |items| > 0 {
        if faults.deleteItems {
          return Failure(StoreError);
        }
        quotationItems := quotationItems - {id};
        if faults.insertItems || id !in quotations {
          return Failure(StoreError);
        }
        quotationItems := quotationItems[id := ItemsForUpdate(items)];
      }
      return Success(());
    }

    /** `deleteQuotation`: the header goes and its lines with it (cascade). */
    method DeleteQuotation(id: string, fault: bool) returns (r: Result<(), ServiceError>)
      requires Valid()
      modifies this
      ensures Valid()
      ensures invoices == old(invoices) && invoiceItems == old(invoiceItems) && settings == old(settings)
      ensures !IsUuid(id) || fault ==>
        r == Failure(if IsUuid(id) then StoreError else InvalidId)
        && quotations == old(quotations) && quotationItems == old(quotationItems)
      ensures IsUuid(id) && !fault ==>
        r == Success(()) && quotations == old(quotations) - {id}
        && quotationItems == old(quotationItems) - {id}
    {
      if !IsUuid(id) {
        return Failure(InvalidId);
      }
      if fault {
        return Failure(StoreError);
      }
      quotations := quotations - {id};
      quotationItems := quotationItems - {id};
      return Success(());
    }

    /** `createInvoice`, the same steps as `createQuotation`. */
    method CreateInvoice(invoice: Invoice, items: seq<Item>, newId: string, faults: StoreFaults)
      returns (r: Result<Invoice, ServiceError>)
      requires Valid() && newId !in invoices
      modifies this
      ensures Valid()
      ensures quotations == old(quotations) && quotationItems == old(quotationItems) && settings == old(settings)
      ensures !ClientValid(invoice.client, isEmail) ==>
        r == Failure(ValidationError) && invoices == old(invoices) && invoiceItems == old(invoiceItems)
      ensures ClientValid(invoice.client, isEmail) && !AllItemsValid(items) ==>
        r == Failure(ItemValidationError) && invoices == old(invoices) && invoiceItems == old(invoiceItems)
      ensures ClientValid(invoice.client, isEmail) && AllItemsValid(items) && faults.header ==>
        r == Failure(StoreError) && invoices == old(invoices) && invoiceItems == old(invoiceItems)
      ensures ClientValid(invoice.client, isEmail) && AllItemsValid(items) && !faults.header ==>
        invoices == old(invoices)[newId := StoredInvoice(invoice, newId)]
        && (if |items| > 0 && faults.insertItems
            then r == Failure(StoreError) && invoiceItems == old(invoiceItems)
            else r == Success(StoredInvoice(invoice, newId))
                 && invoiceItems == (if |items| > 0 then old(invoiceItems)[newId := NumberedItems(items)]
                                     else old(invoiceItems)))
    {
      if !ClientValid(invoice.client, isEmail) {
        return Failure(ValidationError);
      }
      var bad := FindInvalidItem(items);
      if bad.Some? {
        return Failure(ItemValidationError);
      }
      if faults.header {
        return Failure(StoreError);
      }
      var created := StoredInvoice(invoice, newId);
      invoices := invoices[newId := created];
      if |items| > 0 {
        if faults.insertItems {
          return Failure(StoreError);
        }
        invoiceItems := invoiceItems[newId := NumberedItems(items)];
      }
      return Success(created);
    }

    /** `updateInvoice`, the same steps as `updateQuotation`. */
    method UpdateInvoice(id: string, patch: InvoicePatch, items: seq<Item>, faults: StoreFaults)
      returns (r: Result<(), ServiceError>)
      requires Valid()
      modifies this
      ensures Valid()
      ensures quotations == old(quotations) && quotationItems == old(quotationItems) && settings == old(settings)
      ensures !IsUuid(id) || faults.header ==>
        r == Failure(if IsUuid(id) then StoreError else InvalidId)
        && invoices == old(invoices) && invoiceItems == old(invoiceItems)
      ensures IsUuid(id) && !faults.header ==>
        invoices == UpdatedRows(old(invoices), id, h => PatchInvoice(h, patch))
      ensures IsUuid(id) && !faults.header && |items| == 0 ==>
        r == Success(()) && invoiceItems == old(invoiceItems)
      ensures IsUuid(id) && !faults.header && |items| > 0 && faults.deleteItems ==>
        r == Failure(StoreError) && invoiceItems == old(invoiceItems)
      ensures IsUuid(id) && !faults.header && |items| > 0 && !faults.deleteItems ==>
        if faults.insertItems || id !in old(invoices)
        then r == Failure(StoreError) && invoiceItems == old(invoiceItems) - {id}
        else r == Success(()) && invoiceItems == old(invoiceItems)[id := ItemsForUpdate(items)]
      ensures r == UpdateOutcome(id, id in old(invoices), items, faults)
      ensures invoiceItems == LinesAfterUpdate(old(invoiceItems), id, id in old(invoices), items, faults)
    {
      if !IsUuid(id) {
        return Failure(InvalidId);
      }
      if faults.header {
        return Failure(StoreError);
      }
      invoices := UpdatedRows(invoices, id, h => PatchInvoice(h, patch));
      if |items| > 0 {
        if faults.deleteItems {
          return Failure(StoreError);
        }
        invoiceItems := invoiceItems - {id};
        if faults.insertItems || id !in invoices {
          return Failure(StoreError);
        }
        invoiceItems := invoiceItems[id := ItemsForUpdate(items)];
      }
      return Success(());
    }

    /** `deleteInvoice`: the header goes and its lines with it (cascade). */
    method DeleteInvoice(id: string, fault: bool) returns (r: Result<(), ServiceError>)
      requires Valid()
      modifies this
      ensures Valid()
      ensures quotations == old(quotations) && quotationItems == old(quotationItems) && settings == old(settings)
      ensures !IsUuid(id) || fault ==>
        r == Failure(if IsUuid(id) then StoreError else InvalidId)
        && invoices == old(invoices) && invoiceItems == old(invoiceItems)
      ensures IsUuid(id) && !fault ==>
        r == Success(()) && invoices == old(invoices) - {id}
        && invoiceItems == old(invoiceItems) - {id}
    {
      if !IsUuid(id) {
        return Failure(InvalidId);
      }
      if fault {
        return Failure(StoreError);
      }
      invoices := invoices - {id};
      invoiceItems := invoiceItems - {id};
      return Success(());
    }

    /** `getBusinessSettings` with `maybeSingle()`: no row gives null, one row
        gives that row, and several rows raise the store's PGRST116 error,
        which is swallowed, so null again. */
    method GetBusinessSettings(fault: bool) returns (r: Result<Option<BusinessSettings>, ServiceError>)
      ensures fault ==> r == Failure(StoreError)
      ensures !fault && |settings| == 1 ==> r.Success? && r.value.Some? && r.value.value in settings.Values
      ensures !fault && |settings| != 1 ==> r == Success(None)
    {
      if fault {
        return Failure(StoreError);
      }
      if |settings| == 1 {
        var k := OneKey(settings);
        return Success(Some(settings[k]));
      }
      return Success(None);
    }

    /** `updateBusinessSettings`: an upsert keyed by the payload's id, stamped
        with `updated_at = now`. The spread after `id: settings.id || undefined`
        puts the payload's own id back, so an id that is present, even empty,
        is the key; with no id the store creates the row under `newId`. */
    method UpdateBusinessSettings(s: BusinessSettings, newId: string, now: int, fault: bool)
      returns (r: Result<BusinessSettings, ServiceError>)
      requires newId !in settings
      modifies this
      ensures quotations == old(quotations) && quotationItems == old(quotationItems)
      ensures invoices == old(invoices) && invoiceItems == old(invoiceItems)
      ensures fault ==> r == Failure(StoreError) && settings == old(settings)
      ensures !fault ==>
        var key := if s.id.Some? then s.id.value else newId;
        var row := s.(id := Some(key), updatedAt := now);
        r == Success(row) && settings == old(settings)[key := row]
    {
      if fault {
        return Failure(StoreError);
      }
      var key := if s.id.Some? then s.id.value else newId;
      var row := s.(id := Some(key), updatedAt := now);
      settings := settings[key := row];
      return Success(row);
    }
  }

  /** The one key of a one-entry map. */
  method OneKey<K, V>(m: map<K, V>) returns (k: K)
    requires |m| == 1
    ensures k in m
  {
    assert |m.Keys| == 1;
    k :| k in m;
  }
}
