/** The record shapes of the billing back office: quotations, invoices, their
    line items, the status unions with their badge configuration, and the
    default records a new form starts from. Money is `real`, a calendar date is
    an integer day number (`None` for an empty date string). */
module BillingTypes {
  import opened Wrappers
  import opened Text

  // ---------------------------------------------------------------------
  // Status unions
  // ---------------------------------------------------------------------

  /** A quotation's status: the datatype admits exactly these five. */
  datatype QuotationStatus = Draft | Sent | Accepted | Rejected | Expired

  /** An invoice's status: the datatype admits exactly these six. */
  datatype InvoiceStatus = Draft | Sent | Paid | Pending | Overdue | Cancelled

  /** How `discount_value` is read: a percentage of the subtotal or a fixed sum. */
  datatype DiscountType = Percentage | Fixed

  /** The string stored in the `status` column. */
  function QuotationStatusName(s: QuotationStatus): string {
    match s
    case Draft => "draft"
    case Sent => "sent"
    case Accepted => "accepted"
    case Rejected => "rejected"
    case Expired => "expired"
  }

  function InvoiceStatusName(s: InvoiceStatus): string {
    match s
    case Draft => "draft"
    case Sent => "sent"
    case Paid => "paid"
    case Pending => "pending"
    case Overdue => "overdue"
    case Cancelled => "cancelled"
  }

  const QUOTATION_STATUS_NAMES: set<string> := {"draft", "sent", "accepted", "rejected", "expired"}
  const INVOICE_STATUS_NAMES: set<string> := {"draft", "sent", "paid", "pending", "overdue", "cancelled"}

  /** Reads a `status` column back; any other string is not a quotation status. */
  function ParseQuotationStatus(name: string): (r: Option<QuotationStatus>)
    ensures r.Some? <==> name in QUOTATION_STATUS_NAMES
    ensures r.Some? ==> QuotationStatusName(r.value) == name
  {
    if name == "draft" then Some(QuotationStatus.Draft)
    else if name == "sent" then Some(QuotationStatus.Sent)
    else if name == "accepted" then Some(Accepted)
    else if name == "rejected" then Some(Rejected)
    else if name == "expired" then Some(Expired)
    else None
  }

  function ParseInvoiceStatus(name: string): (r: Option<InvoiceStatus>)
    ensures r.Some? <==> name in INVOICE_STATUS_NAMES
    ensures r.Some? ==> InvoiceStatusName(r.value) == name
  {
    if name == "draft" then Some(InvoiceStatus.Draft)
    else if name == "sent" then Some(InvoiceStatus.Sent)
    else if name == "paid" then Some(Paid)
    else if name == "pending" then Some(Pending)
    else if name == "overdue" then Some(Overdue)
    else if name == "cancelled" then Some(Cancelled)
    else None
  }

  /** Every status has its own column string, and reading it back gives the status. */
  lemma QuotationStatusRoundTrip(s: QuotationStatus, t: QuotationStatus)
    ensures ParseQuotationStatus(QuotationStatusName(s)) == Some(s)
    ensures QuotationStatusName(s) == QuotationStatusName(t) ==> s == t
  {
  }

  lemma InvoiceStatusRoundTrip(s: InvoiceStatus, t: InvoiceStatus)
    ensures ParseInvoiceStatus(InvoiceStatusName(s)) == Some(s)
    ensures InvoiceStatusName(s) == InvoiceStatusName(t) ==> s == t
  {
  }

  // ---------------------------------------------------------------------
  // Badge configuration
  // ---------------------------------------------------------------------

  datatype StatusStyle = StatusStyle(labelText: string, color: string, icon: string)

  const QUOTATION_STATUS_CONFIG: map<string, StatusStyle> := map[
    "draft" := StatusStyle("Draft", "bg-gray-100 text-gray-700", "FileText"),
    "sent" := StatusStyle("Sent", "bg-blue-100 text-blue-700", "Send"),
    "accepted" := StatusStyle("Accepted", "bg-green-100 text-green-700", "CheckCircle"),
    "rejected" := StatusStyle("Rejected", "bg-red-100 text-red-700", "XCircle"),
    "expired" := StatusStyle("Expired", "bg-orange-100 text-orange-700", "Clock")
  ]

  const INVOICE_STATUS_CONFIG: map<string, StatusStyle> := map[
    "draft" := StatusStyle("Draft", "bg-gray-100 text-gray-700", "FileText"),
    "sent" := StatusStyle("Sent", "bg-blue-100 text-blue-700", "Send"),
    "pending" := StatusStyle("Pending", "bg-yellow-100 text-yellow-700", "Clock"),
    "paid" := StatusStyle("Paid", "bg-green-100 text-green-700", "CheckCircle"),
    "overdue" := StatusStyle("Overdue", "bg-red-100 text-red-700", "AlertCircle"),
    "cancelled" := StatusStyle("Cancelled", "bg-gray-100 text-gray-500", "XCircle")
  ]

  /** The first letter upper-cased: how every badge label relates to its status. */
  function Capitalised(s: string): string {
    if s == [] then [] else [UpperChar(s[0])] + s[1..]
  }

  /** Each quotation badge label is its status, capitalised. */
  lemma QuotationLabelsCapitalised(s: QuotationStatus)
    ensures QuotationStatusName(s) in QUOTATION_STATUS_CONFIG
    ensures QUOTATION_STATUS_CONFIG[QuotationStatusName(s)].labelText == Capitalised(QuotationStatusName(s))
  {
    match s
    case Draft => assert "draft"[1..] == "raft"; assert Capitalised("draft") == "Draft";
    case Sent => assert "sent"[1..] == "ent"; assert Capitalised("sent") == "Sent";
    case Accepted => assert "accepted"[1..] == "ccepted"; assert Capitalised("accepted") == "Accepted";
    case Rejected => assert "rejected"[1..] == "ejected"; assert Capitalised("rejected") == "Rejected";
    case Expired => assert "expired"[1..] == "xpired"; assert Capitalised("expired") == "Expired";
  }

  /** Each invoice badge label is its status, capitalised. */
  lemma InvoiceLabelsCapitalised(s: InvoiceStatus)
    ensures InvoiceStatusName(s) in INVOICE_STATUS_CONFIG
    ensures INVOICE_STATUS_CONFIG[InvoiceStatusName(s)].labelText == Capitalised(InvoiceStatusName(s))
  {
    match s
    case Draft => assert "draft"[1..] == "raft"; assert Capitalised("draft") == "Draft";
    case Sent => assert "sent"[1..] == "ent"; assert Capitalised("sent") == "Sent";
    case Pending => assert "pending"[1..] == "ending"; assert Capitalised("pending") == "Pending";
    case Paid => assert "paid"[1..] == "aid"; assert Capitalised("paid") == "Paid";
    case Overdue => assert "overdue"[1..] == "verdue"; assert Capitalised("overdue") == "Overdue";
    case Cancelled => assert "cancelled"[1..] == "ancelled"; assert Capitalised("cancelled") == "Cancelled";
  }

  /** The configuration is keyed by exactly the status strings, so looking a
      status up never fails, and each label is the capitalised status. */
  lemma QuotationStatusConfigTotal()
    ensures QUOTATION_STATUS_CONFIG.Keys == QUOTATION_STATUS_NAMES
    ensures forall s: QuotationStatus :: QuotationStatusName(s) in QUOTATION_STATUS_CONFIG
  {
  }

  lemma InvoiceStatusConfigTotal()
    ensures INVOICE_STATUS_CONFIG.Keys == INVOICE_STATUS_NAMES
    ensures forall s: InvoiceStatus :: InvoiceStatusName(s) in INVOICE_STATUS_CONFIG
  {
  }

  /** `QUOTATION_STATUS_CONFIG[status]`, the lookup behind the status badge. */
  function QuotationStatusStyle(s: QuotationStatus): (r: StatusStyle)
    ensures r.labelText == Capitalised(QuotationStatusName(s))
  {
    QuotationLabelsCapitalised(s);
    QUOTATION_STATUS_CONFIG[QuotationStatusName(s)]
  }

  /** `INVOICE_STATUS_CONFIG[status]`, the lookup behind the status badge. */
  function InvoiceStatusStyle(s: InvoiceStatus): (r: StatusStyle)
    ensures r.labelText == Capitalised(InvoiceStatusName(s))
  {
    InvoiceLabelsCapitalised(s);
    INVOICE_STATUS_CONFIG[InvoiceStatusName(s)]
  }

  // ---------------------------------------------------------------------
  // Documents
  // ---------------------------------------------------------------------

  /** A quotation or invoice line. `description` is `None` when the stored
      column is null. */
  datatype Item = Item(serviceName: string, description: Option<string>,
                       quantity: real, rate: real, amount: real, sortOrder: int)

  /** A line's amount is its quantity times its rate. */
  predicate AmountConsistent(it: Item) {
    it.amount == it.quantity * it.rate
  }

  datatype Client = Client(name: string, businessName: string, phone: string,
                           email: string, address: string)

  datatype Pricing = Pricing(subtotal: real, discountType: DiscountType,
                             discountValue: real, discountAmount: real,
                             taxableAmount: real, gstPercentage: real,
                             gstAmount: real, grandTotal: real)

  /** The chain every computed pricing satisfies. */
  predicate PricingConsistent(p: Pricing) {
    p.taxableAmount == p.subtotal - p.discountAmount
    && p.grandTotal == p.taxableAmount + p.gstAmount
  }

  datatype Quotation = Quotation(
    id: Option<string>, number: string, date: Option<int>, validityDays: int,
    validUntil: Option<int>, client: Client, pricing: Pricing,
    paymentTerms: string, notes: string, status: QuotationStatus,
    items: Option<seq<Item>>)

  datatype Invoice = Invoice(
    id: Option<string>, number: string, date: Option<int>, dueDate: Option<int>,
    quotationId: Option<string>, client: Client, pricing: Pricing,
    amountPaid: real, balanceDue: real, paymentTerms: string, notes: string,
    status: InvoiceStatus, paidAt: Option<int>, items: Option<seq<Item>>)

  /** What is still owed equals the grand total less what was paid. */
  predicate BalanceConsistent(inv: Invoice) {
    inv.balanceDue == inv.pricing.grandTotal - inv.amountPaid
  }

  datatype BusinessSettings = BusinessSettings(
    id: Option<string>, companyName: string, companyAddress: string,
    companyPhone: string, companyEmail: string, companyWebsite: string,
    logoUrl: Option<string>, currency: string, currencyCode: string,
    gstNumber: Option<string>, gstPercentage: real, enableGst: bool,
    enableDiscount: bool, defaultPaymentTerms: string, defaultValidityDays: int,
    bankName: Option<string>, bankAccountNumber: Option<string>,
    bankIfsc: Option<string>, upiId: Option<string>, updatedAt: int)

  /** A quick-pick service for a line: its name and description. */
  datatype Preset = Preset(name: string, description: string)

  const SERVICE_PRESETS: seq<Preset> := [
    Preset("Website Development", "Custom website design and development"),
    Preset("Website Redesign", "Modern redesign of existing website"),
    Preset("E-commerce Website", "Full-featured online store development"),
    Preset("Landing Page", "High-converting single page design"),
    Preset("SEO Optimization", "Search engine optimization services"),
    Preset("Meta Ads Management", "Facebook & Instagram advertising"),
    Preset("Google Ads Management", "Google Ads campaign management"),
    Preset("Social Media Management", "Monthly social media handling"),
    Preset("Content Creation", "Graphics, reels, and content design"),
    Preset("Logo Design", "Professional brand logo design"),
    Preset("Brand Identity", "Complete brand identity package"),
    Preset("Website Maintenance", "Monthly website maintenance and updates"),
    Preset("Domain & Hosting", "Annual domain and hosting services"),
    Preset("Email Setup", "Professional email configuration"),
    Preset("Consultation", "Digital marketing consultation")
  ]

  // ---------------------------------------------------------------------
  // Defaults
  // ---------------------------------------------------------------------

  const DEFAULT_ITEM: Item := Item("", Some(""), 1.0, 0.0, 0.0, 0)

  const EMPTY_CLIENT: Client := Client("", "", "", "", "")

  const ZERO_PRICING: Pricing := Pricing(0.0, Percentage, 0.0, 0.0, 0.0, 18.0, 0.0, 0.0)

  /** The default line already satisfies amount = quantity × rate. */
  lemma DefaultItemConsistent()
    ensures AmountConsistent(DEFAULT_ITEM) && DEFAULT_ITEM.quantity == 1.0
  {
  }

  /** `DEFAULT_QUOTATION`, whose date is the current day `today`. */
  function DefaultQuotation(today: int): (q: Quotation)
    ensures PricingConsistent(q.pricing) && q.pricing.grandTotal == 0.0
    ensures q.status == QuotationStatus.Draft && q.validityDays == 15
    ensures q.pricing.gstPercentage == 18.0 && q.pricing.discountType == Percentage
    ensures q.date == Some(today) && q.validUntil == None && q.items == Some([])
  {
    Quotation(None, "", Some(today), 15, None, EMPTY_CLIENT, ZERO_PRICING,
              "50% advance, balance on delivery", "", QuotationStatus.Draft, Some([]))
  }

  /** `DEFAULT_INVOICE`, whose date is the current day `today`. */
  function DefaultInvoice(today: int): (inv: Invoice)
    ensures PricingConsistent(inv.pricing) && BalanceConsistent(inv)
    ensures inv.pricing.grandTotal == 0.0 && inv.amountPaid == 0.0
    ensures inv.status == InvoiceStatus.Draft && inv.pricing.gstPercentage == 18.0
    ensures inv.date == Some(today) && inv.dueDate == None && inv.items == Some([])
  {
    Invoice(None, "", Some(today), None, None, EMPTY_CLIENT, ZERO_PRICING,
            0.0, 0.0, "", "", InvoiceStatus.Draft, None, Some([]))
  }
}
