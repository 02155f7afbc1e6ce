/** The quotation and invoice PDFs. The jsPDF document is an append-only list
    of drawing operations, each tagged with the page it lands on; a layout
    cursor `y` (millimetres from the top of the page) moves down as sections
    are drawn. Horizontal positions, fonts and colours are not modelled. Each
    section has a pure function stating what it draws, and a method that draws
    it on the document step by step. */
module PdfGenerator {
  import opened Wrappers
  import opened Text
  import opened BillingTypes

  /** What one text call prints. Fixed layout words are `Caption`s, fields of
      the document are `Str`s, `Joined` is its parts separated by " | ",
      `Money` is a prefix followed by the amount in the Indian locale, `Num` is
      `String(value)`, `RowNumber(n)` is the `String(index + 1)` that opens a
      table row, `Day` a caption followed by a formatted date, and `Status`
      the invoice's `StatusText`. */
  datatype Piece =
    | Caption(word: Label)
    | Str(text: string)
    | Joined(parts: seq<string>)
    | Money(prefix: Prefix, value: real)
    | Num(value: real)
    | RowNumber(n: nat)
    | GstCaption(percentage: real)
    | Day(word: Label, day: Option<int>)
    | Status(status: InvoiceStatus)

  /** What comes before an amount. */
  datatype Prefix = Plain | Minus | PaidPrefix | BalancePrefix

  function PrefixText(p: Prefix): string {
    match p
    case Plain => RUPEE
    case Minus => "- " + RUPEE
    case PaidPrefix => "Amount Paid: " + RUPEE
    case BalancePrefix => "Balance Due: " + RUPEE
  }

  /** The fixed words of the layout. */
  datatype Label =
    | QuotationTitle | InvoiceTitle | DateLabel | ValidUntilLabel | DueDateLabel
    | Tagline | BillTo | RowHeading | ServiceHeading | QtyHeading | RateHeading | AmountHeading
    | SubtotalLabel | DiscountLabel | GrandTotalLabel | PaymentTermsLabel | NotesLabel | ThankYou

  function LabelText(l: Label): string {
    match l
    case QuotationTitle => "QUOTATION"
    case InvoiceTitle => "INVOICE"
    case DateLabel => "Date: "
    case ValidUntilLabel => "Valid Until: "
    case DueDateLabel => "Due Date: "
    case Tagline => "Digital Marketing Agency"
    case BillTo => "BILL TO"
    case RowHeading => "#"
    case ServiceHeading => "Service"
    case QtyHeading => "Qty"
    case RateHeading => "Rate"
    case AmountHeading => "Amount"
    case SubtotalLabel => "Subtotal"
    case DiscountLabel => "Discount"
    case GrandTotalLabel => "Grand Total"
    case PaymentTermsLabel => "Payment Terms"
    case NotesLabel => "Notes"
    case ThankYou => "Thank you for your business!"
  }

  datatype Op =
    | Text(page: nat, y: real, piece: Piece)
    | Line(page: nat, y: real)
    | Rect(page: nat, y: real)
    | NewPage

  /** The cursor after a section: what it drew, the page and the `y` it ends on. */
  datatype Drawn = Drawn(ops: seq<Op>, page: nat, y: real)

  datatype BusinessInfo = BusinessInfo(companyName: string, companyAddress: string, companyPhone: string,
                                       companyEmail: string, companyWebsite: string, gstNumber: string)

  const DEFAULT_BUSINESS := BusinessInfo("URDIGIX", "India", "+91 78930 40375", "hello@urdigix.com",
                                         "www.urdigix.com", "")

  const MARGIN: real := 20.0
  /** The height of an A4 page in millimetres: 841.89 points at 72/25.4 points per millimetre. */
  const PAGE_HEIGHT: real := 21384.006 / 72.0
  const RUPEE: string := "\U{20B9}"

  // ---------------------------------------------------------------------
  // Observations on a list of operations
  // ---------------------------------------------------------------------

  predicate Prints(o: Op, piece: Piece) {
    o.Text? && o.piece == piece
  }

  /** Some text call of `ops` printed `piece`, scanning from the first. */
  predicate Shows(ops: seq<Op>, piece: Piece)
    decreases |ops|
  {
    ops != [] && (Prints(ops[0], piece) || Shows(ops[1..], piece))
  }

  /** `Shows` agrees with the reference definition: some operation of the
      list prints the piece. */
  lemma {:induction false} ShowsIff(ops: seq<Op>, piece: Piece)
    ensures Shows(ops, piece) <==> exists o :: o in ops && Prints(o, piece)
    decreases |ops|
  {
    if ops != [] {
      ShowsIff(ops[1..], piece);
      assert ops == [ops[0]] + ops[1..];
    }
  }

  predicate IsRowStart(o: Op) {
    o.Text? && o.piece.RowNumber?
  }

  /** The row numbers printed, in order. */
  function RowNumbers(ops: seq<Op>): seq<nat>
    decreases |ops|
  {
    if ops == [] then []
    else (if IsRowStart(ops[0]) then [ops[0].piece.n] else []) + RowNumbers(ops[1..])
  }

  function PageBreaks(ops: seq<Op>): nat
    decreases |ops|
  {
    if ops == [] then 0 else (if ops[0].NewPage? then 1 else 0) + PageBreaks(ops[1..])
  }

  /** `1, 2, …, n` shifted to start at `from + 1`. */
  function Numbering(from: nat, count: nat): (r: seq<nat>)
    ensures |r| == count
    ensures forall k :: 0 <= k < count ==> r[k] == from + k + 1
    decreases count
  {
    if count == 0 then [] else [from + 1] + Numbering(from + 1, count - 1)
  }

  lemma AppendAssoc(a: seq<Op>, b: seq<Op>, c: seq<Op>)
    ensures a + (b + c) == (a + b) + c
  {
  }

  lemma Assoc4(a: seq<Op>, b: seq<Op>, c: seq<Op>, d: seq<Op>)
    ensures a + b + c + d == a + (b + c + d)
  {
    AppendAssoc(a, b, c);
    AppendAssoc(a, b + c, d);
  }

  lemma Assoc5(a: seq<Op>, b: seq<Op>, c: seq<Op>, d: seq<Op>, e: seq<Op>)
    ensures a + b + c + d + e == a + (b + c + d + e)
  {
    Assoc4(a, b, c, d);
    AppendAssoc(a, b + c + d, e);
  }

  lemma Regroup4(a: seq<Op>, b: seq<Op>, c: seq<Op>, d: seq<Op>, tail: seq<Op>)
    requires tail == b + c + d
    ensures a + b + c + d == a + tail
  {
    Assoc4(a, b, c, d);
  }

  lemma Regroup5(a: seq<Op>, b: seq<Op>, c: seq<Op>, d: seq<Op>, e: seq<Op>, tail: seq<Op>)
    requires tail == b + c + d + e
    ensures a + b + c + d + e == a + tail
  {
    Assoc5(a, b, c, d, e);
  }

  lemma {:induction false} RowNumbersAppend(a: seq<Op>, b: seq<Op>)
    ensures RowNumbers(a + b) == RowNumbers(a) + RowNumbers(b)
    decreases |a|
  {
    if a == [] {
      assert a + b == b;
    } else {
      RowNumbersAppend(a[1..], b);
      assert (a + b)[1..] == a[1..] + b;
    }
  }

  lemma {:induction false} PageBreaksAppend(a: seq<Op>, b: seq<Op>)
    ensures PageBreaks(a + b) == PageBreaks(a) + PageBreaks(b)
    decreases |a|
  {
    if a == [] {
      assert a + b == b;
    } else {
      PageBreaksAppend(a[1..], b);
      assert (a + b)[1..] == a[1..] + b;
    }
  }

  /** A list with no row-opening text has no row numbers. */
  lemma {:induction false} NoRowNumbers(ops: seq<Op>)
    requires forall o :: o in ops ==> !IsRowStart(o)
    ensures RowNumbers(ops) == []
    decreases |ops|
  {
    if ops != [] {
      assert ops[0] in ops;
      assert forall o :: o in ops[1..] ==> o in ops;
      NoRowNumbers(ops[1..]);
    }
  }


  /** A list with no page break counts none. */
  lemma {:induction false} NoPageBreaks(ops: seq<Op>)
    requires forall o :: o in ops ==> !o.NewPage?
    ensures PageBreaks(ops) == 0
    decreases |ops|
  {
    if ops != [] {
      assert ops[0] in ops;
      assert forall o :: o in ops[1..] ==> o in ops;
      NoPageBreaks(ops[1..]);
    }
  }

  /** Every caption a list prints is one of `allowed`. */
  predicate OnlyCaptions(ops: seq<Op>, allowed: set<Label>) {
    forall o :: o in ops && o.Text? && o.piece.Caption? ==> o.piece.word in allowed
  }

  // ---------------------------------------------------------------------
  // Sections, as functions
  // ---------------------------------------------------------------------

  /** Company block on the left, title, number and two dates on the right, then
      the header rule; the cursor ends at 65. */
  function HeaderOps(biz: BusinessInfo, title: Label, number: string, firstCaption: Label, first: Option<int>,
                     secondCaption: Label, second: Option<int>, page: nat): seq<Op> {
    [Text(page, 20.0, Str(biz.companyName)),
     Text(page, 28.0, Caption(Tagline)),
     Text(page, 33.0, Joined([biz.companyEmail, biz.companyPhone])),
     Text(page, 38.0, Str(biz.companyAddress)),
     Text(page, 20.0, Caption(title)),
     Text(page, 30.0, Str(number)),
     Text(page, 37.0, Day(firstCaption, first)),
     Text(page, 43.0, Day(secondCaption, second)),
     Line(page, 50.0)]
  }

  const HEADER_END: real := 65.0

  /** A client field that is printed only when non-empty, advancing 5. */
  function OptionalField(s: string, page: nat, y: real): Drawn {
    if s != "" then Drawn([Text(page, y, Str(s))], page, y + 5.0) else Drawn([], page, y)
  }

  /** The BILL TO block. */
  function ClientOps(c: Client, page: nat, y: real): Drawn {
    var b := OptionalField(c.businessName, page, y + 12.0);
    var e := OptionalField(c.email, page, b.y);
    var p := OptionalField(c.phone, page, e.y);
    var a := OptionalField(c.address, page, p.y);
    Drawn([Text(page, y, Caption(BillTo)), Text(page, y + 6.0, Str(c.name))] + b.ops + e.ops + p.ops + a.ops,
          page, a.y + 10.0)
  }

  function TableHeaderOps(page: nat, y: real): Drawn {
    Drawn([Rect(page, y - 4.0), Text(page, y + 2.0, Caption(RowHeading)), Text(page, y + 2.0, Caption(ServiceHeading)),
           Text(page, y + 2.0, Caption(QtyHeading)), Text(page, y + 2.0, Caption(RateHeading)),
           Text(page, y + 2.0, Caption(AmountHeading))],
          page, y + 12.0)
  }

  /** `if (item.description)`: present and non-empty. */
  predicate HasDescription(it: Item) {
    it.description.Some? && it.description.value != ""
  }

  function RowStep(it: Item): real {
    if HasDescription(it) then 12.0 else 8.0
  }

  /** What follows the row number: the service name, the description 4 below
      it when there is one, then quantity, rate and amount on the baseline and
      the separator 2 above the next baseline. */
  function RowBody(it: Item, page: nat, y: real): seq<Op> {
    [Text(page, y, Str(it.serviceName))]
    + (if HasDescription(it) then [Text(page, y + 4.0, Str(it.description.value))] else [])
    + [Text(page, y, Num(it.quantity)), Text(page, y, Money(Plain, it.rate)),
       Text(page, y, Money(Plain, it.amount)), Line(page, y + RowStep(it) - 2.0)]
  }

  function RowOps(it: Item, n: nat, page: nat, y: real): seq<Op> {
    [Text(page, y, RowNumber(n))] + RowBody(it, page, y)
  }

  /** The break test made before each row. */
  predicate NeedsBreak(y: real) {
    y > PAGE_HEIGHT - 80.0
  }

  /** One iteration of the rows loop: the page break if needed, then the row. */
  function RowHead(it: Item, n: nat, page: nat, y: real): Drawn {
    var p := if NeedsBreak(y) then page + 1 else page;
    var y1 := if NeedsBreak(y) then MARGIN else y;
    Drawn((if NeedsBreak(y) then [NewPage] else []) + RowOps(it, n, p, y1), p, y1 + RowStep(it))
  }

  /** The rows from index `i` on, starting at `page` and `y`. */
  function RowsFrom(items: seq<Item>, i: nat, page: nat, y: real): Drawn
    decreases |items| - i
  {
    if i >= |items| then Drawn([], page, y)
    else
      var h := RowHead(items[i], i + 1, page, y);
      var rest := RowsFrom(items, i + 1, h.page, h.y);
      Drawn(h.ops + rest.ops, rest.page, rest.y)
  }

  function SubtotalOps(p: Pricing, page: nat, y: real): seq<Op> {
    [Text(page, y, Caption(SubtotalLabel)), Text(page, y, Money(Plain, p.subtotal))]
  }

  function DiscountOps(p: Pricing, page: nat, y: real): seq<Op> {
    if p.discountAmount > 0.0
    then [Text(page, y, Caption(DiscountLabel)), Text(page, y, Money(Minus, p.discountAmount))]
    else []
  }

  function GstOps(p: Pricing, page: nat, y: real): seq<Op> {
    if p.gstAmount > 0.0
    then [Text(page, y, GstCaption(p.gstPercentage)), Text(page, y, Money(Plain, p.gstAmount))]
    else []
  }

  /** The rule, then the grand total 7 below it. */
  function GrandTotalOps(p: Pricing, page: nat, y: real): seq<Op> {
    [Line(page, y), Text(page, y + 7.0, Caption(GrandTotalLabel)), Text(page, y + 7.0, Money(Plain, p.grandTotal))]
  }

  /** Subtotal, the optional discount and GST lines, the rule and the grand
      total, all printing the stored amounts; the cursor ends on the grand
      total's baseline. */
  function TotalsOps(p: Pricing, page: nat, y: real): Drawn {
    var y1 := y + 5.0;
    var y2 := y1 + 7.0;
    var y3 := if p.discountAmount > 0.0 then y2 + 7.0 else y2;
    var y4 := if p.gstAmount > 0.0 then y3 + 7.0 else y3;
    Drawn(SubtotalOps(p, page, y1) + DiscountOps(p, page, y2) + GstOps(p, page, y3) + GrandTotalOps(p, page, y4),
          page, y4 + 7.0)
  }

  function StatusText(s: InvoiceStatus): string {
    "Status: " + ToUpper(InvoiceStatusName(s))
  }

  /** The invoice's status line and, once something was paid, the paid and
      balance lines; the cursor ends 15 below the last of them. */
  function PaymentOps(inv: Invoice, page: nat, y: real): Drawn {
    var status := [Text(page, y, Status(inv.status))];
    if inv.amountPaid > 0.0 then
      Drawn(status + [Text(page, y + 6.0, Money(PaidPrefix, inv.amountPaid)),
                      Text(page, y + 11.0, Money(BalancePrefix, inv.balanceDue))],
            page, y + 26.0)
    else Drawn(status, page, y + 15.0)
  }

  /** A terms or notes block: heading, then the text 6 below, then 10 more. */
  function Block(heading: Label, body: string, page: nat, y: real): Drawn {
    if body != "" then Drawn([Text(page, y, Caption(heading)), Text(page, y + 6.0, Str(body))], page, y + 16.0)
    else Drawn([], page, y)
  }

  predicate NeedsTermsBreak(y: real) {
    y > PAGE_HEIGHT - 60.0
  }

  /** Payment terms and notes, after a page break when fewer than 60 remain. */
  function TermsOps(terms: string, notes: string, page: nat, y: real): Drawn {
    var p := if NeedsTermsBreak(y) then page + 1 else page;
    var y1 := if NeedsTermsBreak(y) then MARGIN else y;
    var t := Block(PaymentTermsLabel, terms, p, y1);
    var n := Block(NotesLabel, notes, p, t.y);
    Drawn((if NeedsTermsBreak(y) then [NewPage] else []) + t.ops + n.ops, p, n.y)
  }

  /** The footer, 20 above the bottom of the last page. */
  function FooterOps(biz: BusinessInfo, page: nat): seq<Op> {
    [Line(page, PAGE_HEIGHT - 25.0),
     Text(page, PAGE_HEIGHT - 20.0, Caption(ThankYou)),
     Text(page, PAGE_HEIGHT - 14.0, Joined([biz.companyName, biz.companyWebsite, biz.companyEmail]))]
  }

  /** The header and table of a document before its rows: shared by both. */
  function FrontOps(biz: BusinessInfo, title: Label, number: string, firstCaption: Label, first: Option<int>,
                    secondCaption: Label, second: Option<int>, c: Client): Drawn {
    var cl := ClientOps(c, 1, HEADER_END);
    var t := TableHeaderOps(1, cl.y);
    Drawn(HeaderOps(biz, title, number, firstCaption, first, secondCaption, second, 1) + cl.ops + t.ops, 1, t.y)
  }

  /** What a quotation draws after its rows, from where the rows ended. */
  function QuotationTail(q: Quotation, biz: BusinessInfo, page: nat, y: real): seq<Op> {
    var s := TotalsOps(q.pricing, page, y);
    var n := TermsOps(q.paymentTerms, q.notes, s.page, s.y + 20.0);
    s.ops + n.ops + FooterOps(biz, n.page)
  }

  /** The whole quotation, section by section in drawing order. */
  function QuotationLayout(q: Quotation, biz: BusinessInfo): seq<Op> {
    var f := FrontOps(biz, QuotationTitle, q.number, DateLabel, q.date, ValidUntilLabel, q.validUntil, q.client);
    var r := RowsFrom(q.items.GetOr([]), 0, f.page, f.y);
    var t := TotalsOps(q.pricing, r.page, r.y);
    var n := TermsOps(q.paymentTerms, q.notes, t.page, t.y + 20.0);
    f.ops + r.ops + t.ops + n.ops + FooterOps(biz, n.page)
  }

  /** What an invoice draws after its rows; its notes block also advances 10,
      which nothing after it depends on. */
  function InvoiceTail(inv: Invoice, biz: BusinessInfo, page: nat, y: real): seq<Op> {
    var s := TotalsOps(inv.pricing, page, y);
    var m := PaymentOps(inv, s.page, s.y + 12.0);
    var n := TermsOps(inv.paymentTerms, inv.notes, m.page, m.y);
    s.ops + m.ops + n.ops + FooterOps(biz, n.page)
  }

  /** The whole invoice, section by section in drawing order. */
  function InvoiceLayout(inv: Invoice, biz: BusinessInfo): seq<Op> {
    var f := FrontOps(biz, InvoiceTitle, inv.number, DateLabel, inv.date, DueDateLabel, inv.dueDate, inv.client);
    var r := RowsFrom(inv.items.GetOr([]), 0, f.page, f.y);
    var t := TotalsOps(inv.pricing, r.page, r.y);
    var m := PaymentOps(inv, t.page, t.y + 12.0);
    var n := TermsOps(inv.paymentTerms, inv.notes, m.page, m.y);
    f.ops + r.ops + t.ops + m.ops + n.ops + FooterOps(biz, n.page)
  }

  // ---------------------------------------------------------------------
  // Properties of the sections
  // ---------------------------------------------------------------------

  /** A row prints its number first and no other row number, stays on its
      page and opens at its baseline. */
  lemma RowOpsFacts(it: Item, n: nat, page: nat, y: real)
    ensures RowNumbers(RowOps(it, n, page, y)) == [n]
    ensures PageBreaks(RowOps(it, n, page, y)) == 0
    ensures forall o :: o in RowOps(it, n, page, y) ==>
      !o.NewPage? && o.page == page && (IsRowStart(o) ==> o.y == y)
  {
    var body := RowBody(it, page, y);
    assert forall o :: o in body ==> !IsRowStart(o) && !o.NewPage? && o.page == page;
    NoRowNumbers(body);
    NoPageBreaks(body);
    assert ([Text(page, y, RowNumber(n))] + body)[1..] == body;
  }

  /** One loop iteration prints one row number. */
  lemma RowHeadNumbers(it: Item, n: nat, page: nat, y: real)
    ensures RowNumbers(RowHead(it, n, page, y).ops) == [n]
  {
    var h := RowHead(it, n, page, y);
    if NeedsBreak(y) {
      var row := RowOps(it, n, page + 1, MARGIN);
      RowOpsFacts(it, n, page + 1, MARGIN);
      assert h.ops == [NewPage] + row;
      RowNumbersAppend([NewPage], row);
    } else {
      RowOpsFacts(it, n, page, y);
      assert h.ops == RowOps(it, n, page, y);
    }
  }

  /** One loop iteration breaks the page at most once, draws everything else
      on the page it ends on and starts its row no lower than 80 above the
      bottom of the page. */
  lemma RowHeadPlacement(it: Item, n: nat, page: nat, y: real)
    ensures var h := RowHead(it, n, page, y);
      PageBreaks(h.ops) == h.page - page && page <= h.page <= page + 1
      && (forall o :: o in h.ops && IsRowStart(o) ==> o.y <= PAGE_HEIGHT - 80.0)
      && (forall o :: o in h.ops && !o.NewPage? ==> o.page == h.page)
  {
    var h := RowHead(it, n, page, y);
    var p := if NeedsBreak(y) then page + 1 else page;
    var y1 := if NeedsBreak(y) then MARGIN else y;
    var row := RowOps(it, n, p, y1);
    RowOpsFacts(it, n, p, y1);
    assert y1 <= PAGE_HEIGHT - 80.0;
    assert h.page == p;
    if NeedsBreak(y) {
      assert h.ops == [NewPage] + row;
      PageBreaksAppend([NewPage], row);
    } else {
      assert h.ops == row;
    }
  }

  /** Exactly one row per item from `i` on, in list order, numbered index + 1. */
  lemma {:induction false} RowsNumbers(items: seq<Item>, i: nat, page: nat, y: real)
    requires i <= |items|
    ensures RowNumbers(RowsFrom(items, i, page, y).ops) == Numbering(i, |items| - i)
    decreases |items| - i
  {
    if i < |items| {
      var h := RowHead(items[i], i + 1, page, y);
      var rest := RowsFrom(items, i + 1, h.page, h.y);
      RowHeadNumbers(items[i], i + 1, page, y);
      RowsNumbers(items, i + 1, h.page, h.y);
      RowNumbersAppend(h.ops, rest.ops);
    }
  }

  /** Every row starts no lower than 80 above the bottom of its page; each
      break adds one page and there is at most one per row. */
  lemma {:induction false} RowsPlacement(items: seq<Item>, i: nat, page: nat, y: real)
    requires i <= |items|
    ensures var r := RowsFrom(items, i, page, y);
      (forall o :: o in r.ops && IsRowStart(o) ==> o.y <= PAGE_HEIGHT - 80.0)
      && (forall o :: o in r.ops && !o.NewPage? ==> page <= o.page <= r.page)
      && r.page == page + PageBreaks(r.ops)
      && PageBreaks(r.ops) <= |items| - i
    decreases |items| - i
  {
    if i < |items| {
      var h := RowHead(items[i], i + 1, page, y);
      var rest := RowsFrom(items, i + 1, h.page, h.y);
      RowHeadPlacement(items[i], i + 1, page, y);
      RowsPlacement(items, i + 1, h.page, h.y);
      PageBreaksAppend(h.ops, rest.ops);
    }
  }

  /** Within a row the quantity, rate and amount share the baseline of the row
      number; the description, when there is one, sits 4 below it; the row
      takes 12 with a description and 8 without. */
  lemma RowBaseline(it: Item, n: nat, page: nat, y: real)
    ensures var ops := RowOps(it, n, page, y);
      Text(page, y, RowNumber(n)) in ops && Text(page, y, Num(it.quantity)) in ops
      && Text(page, y, Money(Plain, it.rate)) in ops && Text(page, y, Money(Plain, it.amount)) in ops
      && (HasDescription(it) ==> Text(page, y + 4.0, Str(it.description.value)) in ops)
      && |ops| == (if HasDescription(it) then 7 else 6)
      && RowStep(it) == (if HasDescription(it) then 12.0 else 8.0)
  {
  }

  /** The discount line appears exactly when the stored discount is positive. */
  lemma TotalsDiscountLine(p: Pricing, page: nat, y: real)
    ensures Shows(TotalsOps(p, page, y).ops, Caption(DiscountLabel)) <==> p.discountAmount > 0.0
  {
    ShowsIff(TotalsOps(p, page, y).ops, Caption(DiscountLabel));
    var y2 := y + 12.0;
    var ops := TotalsOps(p, page, y).ops;
    if p.discountAmount > 0.0 {
      assert Text(page, y2, Caption(DiscountLabel)) in DiscountOps(p, page, y2);
      assert Text(page, y2, Caption(DiscountLabel)) in ops;
    } else {
      assert OnlyCaptions(ops, {SubtotalLabel, GrandTotalLabel});
    }
  }

  /** The GST line appears exactly when the stored GST is positive. */
  lemma TotalsGstLine(p: Pricing, page: nat, y: real)
    ensures Shows(TotalsOps(p, page, y).ops, GstCaption(p.gstPercentage)) <==> p.gstAmount > 0.0
  {
    ShowsIff(TotalsOps(p, page, y).ops, GstCaption(p.gstPercentage));
    var y3 := if p.discountAmount > 0.0 then y + 19.0 else y + 12.0;
    if p.gstAmount > 0.0 {
      assert Text(page, y3, GstCaption(p.gstPercentage)) in GstOps(p, page, y3);
      assert Text(page, y3, GstCaption(p.gstPercentage)) in TotalsOps(p, page, y).ops;
    }
  }

  /** The amounts printed in the totals are the stored ones: nothing is recomputed. */
  lemma TotalsAmounts(p: Pricing, page: nat, y: real)
    ensures var ops := TotalsOps(p, page, y).ops;
      Shows(ops, Money(Plain, p.subtotal)) && Shows(ops, Money(Plain, p.grandTotal))
      && OnlyMoney(ops, {p.subtotal, p.discountAmount, p.gstAmount, p.grandTotal})
  {
    var y3 := if p.discountAmount > 0.0 then y + 19.0 else y + 12.0;
    var y4 := if p.gstAmount > 0.0 then y3 + 7.0 else y3;
    var sub, dis, gst, grand := SubtotalOps(p, page, y + 5.0), DiscountOps(p, page, y + 12.0),
                                GstOps(p, page, y3), GrandTotalOps(p, page, y4);
    var ops := TotalsOps(p, page, y).ops;
    assert ops == sub + dis + gst + grand;
    assert OnlyMoney(sub, {p.subtotal}) && OnlyMoney(dis, {p.discountAmount});
    assert OnlyMoney(gst, {p.gstAmount}) && OnlyMoney(grand, {p.grandTotal});
    OnlyMoneyAppend(sub, dis, {p.subtotal}, {p.discountAmount});
    OnlyMoneyAppend(sub + dis, gst, {p.subtotal, p.discountAmount}, {p.gstAmount});
    OnlyMoneyAppend(sub + dis + gst, grand, {p.subtotal, p.discountAmount, p.gstAmount}, {p.grandTotal});
    assert OnlyMoney(ops, {p.subtotal, p.discountAmount, p.gstAmount} + {p.grandTotal});
    ShowsIff(sub, Money(Plain, p.subtotal));
    ShowsIff(grand, Money(Plain, p.grandTotal));
    assert Text(page, y + 5.0, Money(Plain, p.subtotal)) in sub;
    assert Text(page, y4 + 7.0, Money(Plain, p.grandTotal)) in grand;
    ShowsAppend(sub, dis + gst + grand, Money(Plain, p.subtotal));
    ShowsAppend(sub + dis + gst, grand, Money(Plain, p.grandTotal));
    Assoc4(sub, dis, gst, grand);
  }

  /** Every amount a list prints is one of `allowed`. */
  predicate OnlyMoney(ops: seq<Op>, allowed: set<real>) {
    forall o :: o in ops && o.Text? && o.piece.Money? ==> o.piece.value in allowed
  }

  lemma OnlyMoneyAppend(a: seq<Op>, b: seq<Op>, x: set<real>, z: set<real>)
    requires OnlyMoney(a, x) && OnlyMoney(b, z)
    ensures OnlyMoney(a + b, x + z)
  {
  }

  /** The status is printed upper-cased; the paid and balance lines appear
      exactly when something was paid. */
  lemma PaymentLines(inv: Invoice, page: nat, y: real)
    ensures var ops := PaymentOps(inv, page, y).ops;
      Shows(ops, Status(inv.status))
      && (Shows(ops, Money(PaidPrefix, inv.amountPaid)) <==> inv.amountPaid > 0.0)
      && (Shows(ops, Money(BalancePrefix, inv.balanceDue)) <==> inv.amountPaid > 0.0)
  {
    ShowsIff(PaymentOps(inv, page, y).ops, Status(inv.status));
    ShowsIff(PaymentOps(inv, page, y).ops, Money(PaidPrefix, inv.amountPaid));
    ShowsIff(PaymentOps(inv, page, y).ops, Money(BalancePrefix, inv.balanceDue));
    var ops := PaymentOps(inv, page, y).ops;
    assert Text(page, y, Status(inv.status)) in ops;
    if inv.amountPaid > 0.0 {
      assert Text(page, y + 6.0, Money(PaidPrefix, inv.amountPaid)) in ops;
      assert Text(page, y + 11.0, Money(BalancePrefix, inv.balanceDue)) in ops;
    }
  }

  /** The terms and the notes blocks appear exactly when non-empty. */
  lemma TermsLines(terms: string, notes: string, page: nat, y: real)
    ensures var d := TermsOps(terms, notes, page, y);
      (Shows(d.ops, Caption(PaymentTermsLabel)) <==> terms != "")
      && (Shows(d.ops, Caption(NotesLabel)) <==> notes != "")
  {
    var d := TermsOps(terms, notes, page, y);
    var p := d.page;
    var y1 := if NeedsTermsBreak(y) then MARGIN else y;
    var brk: seq<Op> := if NeedsTermsBreak(y) then [NewPage] else [];
    var t := Block(PaymentTermsLabel, terms, p, y1);
    var n := Block(NotesLabel, notes, p, t.y);
    assert d.ops == brk + t.ops + n.ops;
    var tl: set<Label> := if terms != "" then {PaymentTermsLabel} else {};
    var nl: set<Label> := if notes != "" then {NotesLabel} else {};
    BlockFacts(PaymentTermsLabel, terms, p, y1);
    BlockFacts(NotesLabel, notes, p, t.y);
    assert OnlyCaptions(brk, {});
    OnlyCaptionsAppend(brk, t.ops, {}, tl);
    OnlyCaptionsAppend(brk + t.ops, n.ops, {} + tl, nl);
    ShowsIff(d.ops, Caption(PaymentTermsLabel));
    ShowsIff(d.ops, Caption(NotesLabel));
    if terms != "" {
      assert Text(p, y1, Caption(PaymentTermsLabel)) in d.ops;
    }
    if notes != "" {
      assert Text(p, t.y, Caption(NotesLabel)) in d.ops;
    }
  }

  /** A block prints its heading exactly when its body is non-empty. */
  lemma BlockFacts(heading: Label, body: string, page: nat, y: real)
    ensures OnlyCaptions(Block(heading, body, page, y).ops, if body != "" then {heading} else {})
    ensures body != "" ==> Text(page, y, Caption(heading)) in Block(heading, body, page, y).ops
  {
  }

  /** When fewer than 60 remain above the bottom, terms and notes start on a
      new page at the margin; otherwise they stay on the page. */
  lemma TermsBreak(terms: string, notes: string, page: nat, y: real)
    ensures var d := TermsOps(terms, notes, page, y);
      (NeedsTermsBreak(y) ==>
         d.ops[0] == NewPage && d.page == page + 1
         && (terms != "" ==> d.ops[1] == Text(page + 1, MARGIN, Caption(PaymentTermsLabel))))
      && (!NeedsTermsBreak(y) ==> d.page == page && NewPage !in d.ops)
  {
  }

  /** The client block prints the BILL TO caption and client fields only. */
  lemma ClientFacts(c: Client, page: nat, y: real)
    ensures OnlyCaptions(ClientOps(c, page, y).ops, {BillTo})
    ensures forall o :: o in ClientOps(c, page, y).ops ==> !IsRowStart(o)
  {
    var b := OptionalField(c.businessName, page, y + 12.0);
    var e := OptionalField(c.email, page, b.y);
    var p := OptionalField(c.phone, page, e.y);
    var a := OptionalField(c.address, page, p.y);
    assert forall o :: o in b.ops + e.ops + p.ops + a.ops ==> o.Text? && o.piece.Str?;
  }

  lemma HeaderFacts(biz: BusinessInfo, title: Label, number: string, firstCaption: Label, first: Option<int>,
                    secondCaption: Label, second: Option<int>, page: nat)
    ensures var h := HeaderOps(biz, title, number, firstCaption, first, secondCaption, second, page);
      OnlyCaptions(h, {title, Tagline}) && forall o :: o in h ==> !IsRowStart(o)
  {
  }

  lemma TableHeaderFacts(page: nat, y: real)
    ensures OnlyCaptions(TableHeaderOps(page, y).ops, {RowHeading, ServiceHeading, QtyHeading, RateHeading, AmountHeading})
    ensures forall o :: o in TableHeaderOps(page, y).ops ==> !IsRowStart(o)
  {
  }

  lemma OnlyCaptionsAppend(a: seq<Op>, b: seq<Op>, x: set<Label>, z: set<Label>)
    requires OnlyCaptions(a, x) && OnlyCaptions(b, z)
    ensures OnlyCaptions(a + b, x + z)
  {
  }

  lemma NoRowStartsAppend(a: seq<Op>, b: seq<Op>)
    requires forall o :: o in a ==> !IsRowStart(o)
    requires forall o :: o in b ==> !IsRowStart(o)
    ensures forall o :: o in a + b ==> !IsRowStart(o)
  {
  }

  /** The header, client block and table header print only their own
      captions and no row number. */
  lemma FrontCaptions(biz: BusinessInfo, title: Label, number: string, firstCaption: Label, first: Option<int>,
                      secondCaption: Label, second: Option<int>, c: Client)
    ensures var f := FrontOps(biz, title, number, firstCaption, first, secondCaption, second, c).ops;
      OnlyCaptions(f, {title, Tagline, BillTo, RowHeading, ServiceHeading, QtyHeading, RateHeading, AmountHeading})
      && forall o :: o in f ==> !IsRowStart(o)
  {
    var h := HeaderOps(biz, title, number, firstCaption, first, secondCaption, second, 1);
    var cl := ClientOps(c, 1, HEADER_END);
    var t := TableHeaderOps(1, cl.y);
    HeaderFacts(biz, title, number, firstCaption, first, secondCaption, second, 1);
    ClientFacts(c, 1, HEADER_END);
    TableHeaderFacts(1, cl.y);
    OnlyCaptionsAppend(h, cl.ops, {title, Tagline}, {BillTo});
    OnlyCaptionsAppend(h + cl.ops, t.ops, {title, Tagline} + {BillTo},
                       {RowHeading, ServiceHeading, QtyHeading, RateHeading, AmountHeading});
    NoRowStartsAppend(h, cl.ops);
    NoRowStartsAppend(h + cl.ops, t.ops);
    assert {title, Tagline} + {BillTo} + {RowHeading, ServiceHeading, QtyHeading, RateHeading, AmountHeading}
        == {title, Tagline, BillTo, RowHeading, ServiceHeading, QtyHeading, RateHeading, AmountHeading};
  }

  lemma {:induction false} RowsCaptions(items: seq<Item>, i: nat, page: nat, y: real)
    ensures OnlyCaptions(RowsFrom(items, i, page, y).ops, {})
    decreases |items| - i
  {
    if i < |items| {
      var h := RowHead(items[i], i + 1, page, y);
      var rest := RowsFrom(items, i + 1, h.page, h.y);
      RowHeadCaptions(items[i], i + 1, page, y);
      RowsCaptions(items, i + 1, h.page, h.y);
      OnlyCaptionsAppend(h.ops, rest.ops, {}, {});
    }
  }

  lemma RowHeadCaptions(it: Item, n: nat, page: nat, y: real)
    ensures OnlyCaptions(RowHead(it, n, page, y).ops, {})
  {
  }

  /** The totals print their three captions and no row number. */
  lemma TotalsFacts(p: Pricing, page: nat, y: real)
    ensures OnlyCaptions(TotalsOps(p, page, y).ops, {SubtotalLabel, DiscountLabel, GrandTotalLabel})
    ensures forall o :: o in TotalsOps(p, page, y).ops ==> !IsRowStart(o)
  {
  }

  lemma PaymentFacts(inv: Invoice, page: nat, y: real)
    ensures OnlyCaptions(PaymentOps(inv, page, y).ops, {})
    ensures forall o :: o in PaymentOps(inv, page, y).ops ==> !IsRowStart(o)
  {
  }

  lemma TermsFacts(terms: string, notes: string, page: nat, y: real)
    ensures OnlyCaptions(TermsOps(terms, notes, page, y).ops, {PaymentTermsLabel, NotesLabel})
    ensures forall o :: o in TermsOps(terms, notes, page, y).ops ==> !IsRowStart(o)
  {
  }

  lemma FooterFacts(biz: BusinessInfo, page: nat)
    ensures OnlyCaptions(FooterOps(biz, page), {ThankYou})
    ensures forall o :: o in FooterOps(biz, page) ==> !IsRowStart(o)
  {
  }

  /** Rows numbers are unchanged by prepending or appending a part that opens
      no row. */
  lemma PrependNoRows(f: seq<Op>, r: seq<Op>)
    requires forall o :: o in f ==> !IsRowStart(o)
    ensures RowNumbers(f + r) == RowNumbers(r)
  {
    NoRowNumbers(f);
    RowNumbersAppend(f, r);
  }

  lemma AppendNoRows(a: seq<Op>, b: seq<Op>)
    requires forall o :: o in b ==> !IsRowStart(o)
    ensures RowNumbers(a + b) == RowNumbers(a)
  {
    NoRowNumbers(b);
    RowNumbersAppend(a, b);
  }

  lemma FrontNoRows(biz: BusinessInfo, title: Label, number: string, firstCaption: Label, first: Option<int>,
                    secondCaption: Label, second: Option<int>, c: Client)
    ensures forall o :: o in FrontOps(biz, title, number, firstCaption, first, secondCaption, second, c).ops ==> !IsRowStart(o)
  {
    FrontCaptions(biz, title, number, firstCaption, first, secondCaption, second, c);
  }

  lemma TotalsNoRows(p: Pricing, page: nat, y: real)
    ensures forall o :: o in TotalsOps(p, page, y).ops ==> !IsRowStart(o)
  {
    TotalsFacts(p, page, y);
  }

  lemma PaymentNoRows(inv: Invoice, page: nat, y: real)
    ensures forall o :: o in PaymentOps(inv, page, y).ops ==> !IsRowStart(o)
  {
    PaymentFacts(inv, page, y);
  }

  lemma TermsNoRows(terms: string, notes: string, page: nat, y: real)
    ensures forall o :: o in TermsOps(terms, notes, page, y).ops ==> !IsRowStart(o)
  {
    TermsFacts(terms, notes, page, y);
  }

  lemma FooterNoRows(biz: BusinessInfo, page: nat)
    ensures forall o :: o in FooterOps(biz, page) ==> !IsRowStart(o)
  {
    FooterFacts(biz, page);
  }

  /** Exactly one row per item, numbered from 1 (the numbers alone). */
  lemma RowsNumbered(items: seq<Item>, page: nat, y: real)
    ensures RowNumbers(RowsFrom(items, 0, page, y).ops) == Numbering(0, |items|)
  {
    RowsNumbers(items, 0, page, y);
  }

  lemma {:induction false} ShowsAppend(a: seq<Op>, b: seq<Op>, piece: Piece)
    ensures Shows(a + b, piece) <==> Shows(a, piece) || Shows(b, piece)
    decreases |a|
  {
    if a == [] {
      assert a + b == b;
    } else {
      ShowsAppend(a[1..], b, piece);
      assert (a + b)[1..] == a[1..] + b;
    }
  }

  /** The captions of the header, client block and table header, besides the
      title. */
  predicate FrontCaption(w: Label) {
    w.Tagline? || w.BillTo? || w.RowHeading? || w.ServiceHeading? || w.QtyHeading? || w.RateHeading?
    || w.AmountHeading?
  }

  lemma HeaderHides(biz: BusinessInfo, title: Label, number: string, firstCaption: Label, first: Option<int>,
                    secondCaption: Label, second: Option<int>, w: Label)
    requires w != title && w != Tagline
    ensures !Shows(HeaderOps(biz, title, number, firstCaption, first, secondCaption, second, 1), Caption(w))
  {
    var h := HeaderOps(biz, title, number, firstCaption, first, secondCaption, second, 1);
    HeaderFacts(biz, title, number, firstCaption, first, secondCaption, second, 1);
    ShowsIff(h, Caption(w));
  }

  lemma ClientHides(c: Client, w: Label)
    requires w != BillTo
    ensures !Shows(ClientOps(c, 1, HEADER_END).ops, Caption(w))
  {
    ClientFacts(c, 1, HEADER_END);
    ShowsIff(ClientOps(c, 1, HEADER_END).ops, Caption(w));
  }

  lemma TableHeaderHides(y: real, w: Label)
    requires !FrontCaption(w)
    ensures !Shows(TableHeaderOps(1, y).ops, Caption(w))
  {
    TableHeaderFacts(1, y);
    ShowsIff(TableHeaderOps(1, y).ops, Caption(w));
  }

  lemma FrontHides(biz: BusinessInfo, title: Label, number: string, firstCaption: Label, first: Option<int>,
                   secondCaption: Label, second: Option<int>, c: Client, w: Label)
    requires w != title && !FrontCaption(w)
    ensures !Shows(FrontOps(biz, title, number, firstCaption, first, secondCaption, second, c).ops, Caption(w))
  {
    var h := HeaderOps(biz, title, number, firstCaption, first, secondCaption, second, 1);
    var cl := ClientOps(c, 1, HEADER_END);
    var t := TableHeaderOps(1, cl.y);
    assert FrontOps(biz, title, number, firstCaption, first, secondCaption, second, c).ops == h + cl.ops + t.ops;
    HeaderHides(biz, title, number, firstCaption, first, secondCaption, second, w);
    ClientHides(c, w);
    TableHeaderHides(cl.y, w);
    ShowsAppend(h, cl.ops, Caption(w));
    ShowsAppend(h + cl.ops, t.ops, Caption(w));
  }

  lemma RowsHide(items: seq<Item>, page: nat, y: real, w: Label)
    ensures !Shows(RowsFrom(items, 0, page, y).ops, Caption(w))
  {
    ShowsIff(RowsFrom(items, 0, page, y).ops, Caption(w));
    RowsCaptions(items, 0, page, y);
  }

  lemma TotalsHide(p: Pricing, page: nat, y: real, w: Label)
    requires w != SubtotalLabel && w != DiscountLabel && w != GrandTotalLabel
    ensures !Shows(TotalsOps(p, page, y).ops, Caption(w))
  {
    ShowsIff(TotalsOps(p, page, y).ops, Caption(w));
    TotalsFacts(p, page, y);
  }

  lemma PaymentHides(inv: Invoice, page: nat, y: real, w: Label)
    ensures !Shows(PaymentOps(inv, page, y).ops, Caption(w))
  {
    ShowsIff(PaymentOps(inv, page, y).ops, Caption(w));
    PaymentFacts(inv, page, y);
  }

  lemma TermsHide(terms: string, notes: string, page: nat, y: real, w: Label)
    requires w != PaymentTermsLabel && w != NotesLabel
    ensures !Shows(TermsOps(terms, notes, page, y).ops, Caption(w))
  {
    ShowsIff(TermsOps(terms, notes, page, y).ops, Caption(w));
    TermsFacts(terms, notes, page, y);
  }

  lemma FooterHides(biz: BusinessInfo, page: nat, w: Label)
    requires w != ThankYou
    ensures !Shows(FooterOps(biz, page), Caption(w))
  {
    ShowsIff(FooterOps(biz, page), Caption(w));
    FooterFacts(biz, page);
  }

  /** A document made of three parts shows a piece exactly when one of the
      parts does. */
  lemma Shows3(a: seq<Op>, b: seq<Op>, c: seq<Op>, piece: Piece)
    ensures Shows(a + b + c, piece) <==> Shows(a, piece) || Shows(b, piece) || Shows(c, piece)
  {
    ShowsAppend(a, b, piece);
    ShowsAppend(a + b, c, piece);
  }

  /** The same for four parts. */
  lemma Shows4(a: seq<Op>, b: seq<Op>, c: seq<Op>, d: seq<Op>, piece: Piece)
    ensures Shows(a + b + c + d, piece) <==> Shows(a, piece) || Shows(b, piece) || Shows(c, piece) || Shows(d, piece)
  {
    Shows3(a, b, c, piece);
    ShowsAppend(a + b + c, d, piece);
  }

  /** The rows of a document are those of its rows section when neither the
      part before nor the part after holds a row. */
  lemma RowsBetween(f: seq<Op>, r: seq<Op>, t: seq<Op>)
    requires forall o :: o in f ==> !IsRowStart(o)
    requires RowNumbers(t) == []
    ensures RowNumbers(f + r + t) == RowNumbers(r)
  {
    PrependNoRows(f, r);
    RowNumbersAppend(f + r, t);
  }

  // Quotation tail: totals, terms and footer from wherever the rows ended.

  lemma QuotationTailNoRows(q: Quotation, biz: BusinessInfo, page: nat, y: real)
    ensures RowNumbers(QuotationTail(q, biz, page, y)) == []
  {
    var s := TotalsOps(q.pricing, page, y);
    var n := TermsOps(q.paymentTerms, q.notes, s.page, s.y + 20.0);
    var foot := FooterOps(biz, n.page);
    assert QuotationTail(q, biz, page, y) == s.ops + n.ops + foot;
    TotalsNoRows(q.pricing, page, y);
    NoRowNumbers(s.ops);
    TermsNoRows(q.paymentTerms, q.notes, s.page, s.y + 20.0);
    NoRowNumbers(n.ops);
    FooterNoRows(biz, n.page);
    NoRowNumbers(foot);
    RowNumbersAppend(s.ops, n.ops);
    RowNumbersAppend(s.ops + n.ops, foot);
  }

  lemma QuotationTailDiscount(q: Quotation, biz: BusinessInfo, page: nat, y: real)
    ensures Shows(QuotationTail(q, biz, page, y), Caption(DiscountLabel)) <==> q.pricing.discountAmount > 0.0
  {
    var s := TotalsOps(q.pricing, page, y);
    var n := TermsOps(q.paymentTerms, q.notes, s.page, s.y + 20.0);
    var foot := FooterOps(biz, n.page);
    assert QuotationTail(q, biz, page, y) == s.ops + n.ops + foot;
    TotalsDiscountLine(q.pricing, page, y);
    TermsHide(q.paymentTerms, q.notes, s.page, s.y + 20.0, DiscountLabel);
    FooterHides(biz, n.page, DiscountLabel);
    Shows3(s.ops, n.ops, foot, Caption(DiscountLabel));
  }

  lemma QuotationTailTerms(q: Quotation, biz: BusinessInfo, page: nat, y: real)
    ensures Shows(QuotationTail(q, biz, page, y), Caption(PaymentTermsLabel)) <==> q.paymentTerms != ""
    ensures Shows(QuotationTail(q, biz, page, y), Caption(NotesLabel)) <==> q.notes != ""
  {
    var s := TotalsOps(q.pricing, page, y);
    var n := TermsOps(q.paymentTerms, q.notes, s.page, s.y + 20.0);
    var foot := FooterOps(biz, n.page);
    assert QuotationTail(q, biz, page, y) == s.ops + n.ops + foot;
    TermsLines(q.paymentTerms, q.notes, s.page, s.y + 20.0);
    TotalsHide(q.pricing, page, y, PaymentTermsLabel);
    TotalsHide(q.pricing, page, y, NotesLabel);
    FooterHides(biz, n.page, PaymentTermsLabel);
    FooterHides(biz, n.page, NotesLabel);
    Shows3(s.ops, n.ops, foot, Caption(PaymentTermsLabel));
    Shows3(s.ops, n.ops, foot, Caption(NotesLabel));
  }

  lemma QuotationTailGrandTotal(q: Quotation, biz: BusinessInfo, page: nat, y: real)
    ensures Shows(QuotationTail(q, biz, page, y), Money(Plain, q.pricing.grandTotal))
  {
    var s := TotalsOps(q.pricing, page, y);
    var n := TermsOps(q.paymentTerms, q.notes, s.page, s.y + 20.0);
    var foot := FooterOps(biz, n.page);
    assert QuotationTail(q, biz, page, y) == s.ops + n.ops + foot;
    TotalsAmounts(q.pricing, page, y);
    Shows3(s.ops, n.ops, foot, Money(Plain, q.pricing.grandTotal));
  }

  lemma QuotationLayoutParts(q: Quotation, biz: BusinessInfo)
    ensures var f := FrontOps(biz, QuotationTitle, q.number, DateLabel, q.date, ValidUntilLabel, q.validUntil, q.client);
      var r := RowsFrom(q.items.GetOr([]), 0, f.page, f.y);
      QuotationLayout(q, biz) == f.ops + r.ops + QuotationTail(q, biz, r.page, r.y)
  {
    var f := FrontOps(biz, QuotationTitle, q.number, DateLabel, q.date, ValidUntilLabel, q.validUntil, q.client);
    var r := RowsFrom(q.items.GetOr([]), 0, f.page, f.y);
    var t := TotalsOps(q.pricing, r.page, r.y);
    var n := TermsOps(q.paymentTerms, q.notes, t.page, t.y + 20.0);
    QuotationLayoutFrom(q, biz, f, r, t, n);
    QuotationTailParts(q, biz, r.page, r.y);
    Regroup4(f.ops + r.ops, t.ops, n.ops, FooterOps(biz, n.page), QuotationTail(q, biz, r.page, r.y));
  }

  lemma InvoiceLayoutParts(inv: Invoice, biz: BusinessInfo)
    ensures var f := FrontOps(biz, InvoiceTitle, inv.number, DateLabel, inv.date, DueDateLabel, inv.dueDate, inv.client);
      var r := RowsFrom(inv.items.GetOr([]), 0, f.page, f.y);
      InvoiceLayout(inv, biz) == f.ops + r.ops + InvoiceTail(inv, biz, r.page, r.y)
  {
    var f := FrontOps(biz, InvoiceTitle, inv.number, DateLabel, inv.date, DueDateLabel, inv.dueDate, inv.client);
    var r := RowsFrom(inv.items.GetOr([]), 0, f.page, f.y);
    var t := TotalsOps(inv.pricing, r.page, r.y);
    var m := PaymentOps(inv, t.page, t.y + 12.0);
    var n := TermsOps(inv.paymentTerms, inv.notes, m.page, m.y);
    InvoiceLayoutFrom(inv, biz, f, r, t, m, n);
    InvoiceTailParts(inv, biz, r.page, r.y);
    Regroup5(f.ops + r.ops, t.ops, m.ops, n.ops, FooterOps(biz, n.page), InvoiceTail(inv, biz, r.page, r.y));
  }

  /** A piece that neither the header nor the rows print shows in the whole
      document exactly when the tail prints it. */
  lemma ShowsAfterRows(front: seq<Op>, rows: seq<Op>, tail: seq<Op>, piece: Piece)
    requires !Shows(front, piece) && !Shows(rows, piece)
    ensures Shows(front + rows + tail, piece) <==> Shows(tail, piece)
  {
    ShowsAppend(front, rows, piece);
    ShowsAppend(front + rows, tail, piece);
  }

  /** The quotation PDF has exactly one row per stored line, in order,
      numbered from 1. */
  lemma QuotationRows(q: Quotation, biz: BusinessInfo)
    ensures RowNumbers(QuotationLayout(q, biz)) == Numbering(0, |q.items.GetOr([])|)
  {
    var f := FrontOps(biz, QuotationTitle, q.number, DateLabel, q.date, ValidUntilLabel, q.validUntil, q.client);
    var r := RowsFrom(q.items.GetOr([]), 0, f.page, f.y);
    var t := QuotationTail(q, biz, r.page, r.y);
    QuotationLayoutParts(q, biz);
    RowsNumbered(q.items.GetOr([]), f.page, f.y);
    FrontNoRows(biz, QuotationTitle, q.number, DateLabel, q.date, ValidUntilLabel, q.validUntil, q.client);
    QuotationTailNoRows(q, biz, r.page, r.y);
    RowsBetween(f.ops, r.ops, t);
  }

  /** The quotation PDF shows the discount line exactly when the stored
      discount is positive. */
  lemma QuotationDiscountLine(q: Quotation, biz: BusinessInfo)
    ensures Shows(QuotationLayout(q, biz), Caption(DiscountLabel)) <==> q.pricing.discountAmount > 0.0
  {
    var f := FrontOps(biz, QuotationTitle, q.number, DateLabel, q.date, ValidUntilLabel, q.validUntil, q.client);
    var r := RowsFrom(q.items.GetOr([]), 0, f.page, f.y);
    var t := QuotationTail(q, biz, r.page, r.y);
    QuotationLayoutParts(q, biz);
    QuotationTailDiscount(q, biz, r.page, r.y);
    FrontHides(biz, QuotationTitle, q.number, DateLabel, q.date, ValidUntilLabel, q.validUntil, q.client, DiscountLabel);
    RowsHide(q.items.GetOr([]), f.page, f.y, DiscountLabel);
    ShowsAfterRows(f.ops, r.ops, t, Caption(DiscountLabel));
  }

  /** The quotation PDF shows the payment-terms block exactly when there are
      terms. */
  lemma QuotationTermsLine(q: Quotation, biz: BusinessInfo)
    ensures Shows(QuotationLayout(q, biz), Caption(PaymentTermsLabel)) <==> q.paymentTerms != ""
  {
    var f := FrontOps(biz, QuotationTitle, q.number, DateLabel, q.date, ValidUntilLabel, q.validUntil, q.client);
    var r := RowsFrom(q.items.GetOr([]), 0, f.page, f.y);
    var t := QuotationTail(q, biz, r.page, r.y);
    QuotationLayoutParts(q, biz);
    QuotationTailTerms(q, biz, r.page, r.y);
    FrontHides(biz, QuotationTitle, q.number, DateLabel, q.date, ValidUntilLabel, q.validUntil, q.client, PaymentTermsLabel);
    RowsHide(q.items.GetOr([]), f.page, f.y, PaymentTermsLabel);
    ShowsAfterRows(f.ops, r.ops, t, Caption(PaymentTermsLabel));
  }

  /** The quotation PDF shows the notes block exactly when there are notes. */
  lemma QuotationNotesLine(q: Quotation, biz: BusinessInfo)
    ensures Shows(QuotationLayout(q, biz), Caption(NotesLabel)) <==> q.notes != ""
  {
    var f := FrontOps(biz, QuotationTitle, q.number, DateLabel, q.date, ValidUntilLabel, q.validUntil, q.client);
    var r := RowsFrom(q.items.GetOr([]), 0, f.page, f.y);
    var t := QuotationTail(q, biz, r.page, r.y);
    QuotationLayoutParts(q, biz);
    QuotationTailTerms(q, biz, r.page, r.y);
    FrontHides(biz, QuotationTitle, q.number, DateLabel, q.date, ValidUntilLabel, q.validUntil, q.client, NotesLabel);
    RowsHide(q.items.GetOr([]), f.page, f.y, NotesLabel);
    ShowsAfterRows(f.ops, r.ops, t, Caption(NotesLabel));
  }

  /** The quotation PDF prints the stored grand total. */
  lemma QuotationGrandTotal(q: Quotation, biz: BusinessInfo)
    ensures Shows(QuotationLayout(q, biz), Money(Plain, q.pricing.grandTotal))
  {
    var f := FrontOps(biz, QuotationTitle, q.number, DateLabel, q.date, ValidUntilLabel, q.validUntil, q.client);
    var r := RowsFrom(q.items.GetOr([]), 0, f.page, f.y);
    var t := QuotationTail(q, biz, r.page, r.y);
    QuotationLayoutParts(q, biz);
    QuotationTailGrandTotal(q, biz, r.page, r.y);
    ShowsAppend(f.ops + r.ops, t, Money(Plain, q.pricing.grandTotal));
  }

  // Invoice tail: totals, payment lines, terms and footer.

  lemma InvoiceTailNoRows(inv: Invoice, biz: BusinessInfo, page: nat, y: real)
    ensures RowNumbers(InvoiceTail(inv, biz, page, y)) == []
  {
    var s := TotalsOps(inv.pricing, page, y);
    var m := PaymentOps(inv, s.page, s.y + 12.0);
    var n := TermsOps(inv.paymentTerms, inv.notes, m.page, m.y);
    var foot := FooterOps(biz, n.page);
    assert InvoiceTail(inv, biz, page, y) == s.ops + m.ops + n.ops + foot;
    TotalsNoRows(inv.pricing, page, y);
    NoRowNumbers(s.ops);
    PaymentNoRows(inv, s.page, s.y + 12.0);
    NoRowNumbers(m.ops);
    TermsNoRows(inv.paymentTerms, inv.notes, m.page, m.y);
    NoRowNumbers(n.ops);
    FooterNoRows(biz, n.page);
    NoRowNumbers(foot);
    RowNumbersAppend(s.ops, m.ops);
    RowNumbersAppend(s.ops + m.ops, n.ops);
    RowNumbersAppend(s.ops + m.ops + n.ops, foot);
  }

  lemma InvoiceTailDiscount(inv: Invoice, biz: BusinessInfo, page: nat, y: real)
    ensures Shows(InvoiceTail(inv, biz, page, y), Caption(DiscountLabel)) <==> inv.pricing.discountAmount > 0.0
  {
    var s := TotalsOps(inv.pricing, page, y);
    var m := PaymentOps(inv, s.page, s.y + 12.0);
    var n := TermsOps(inv.paymentTerms, inv.notes, m.page, m.y);
    var foot := FooterOps(biz, n.page);
    assert InvoiceTail(inv, biz, page, y) == s.ops + m.ops + n.ops + foot;
    TotalsDiscountLine(inv.pricing, page, y);
    PaymentHides(inv, s.page, s.y + 12.0, DiscountLabel);
    TermsHide(inv.paymentTerms, inv.notes, m.page, m.y, DiscountLabel);
    FooterHides(biz, n.page, DiscountLabel);
    Shows4(s.ops, m.ops, n.ops, foot, Caption(DiscountLabel));
  }

  lemma InvoiceTailTerms(inv: Invoice, biz: BusinessInfo, page: nat, y: real)
    ensures Shows(InvoiceTail(inv, biz, page, y), Caption(PaymentTermsLabel)) <==> inv.paymentTerms != ""
  {
    var s := TotalsOps(inv.pricing, page, y);
    var m := PaymentOps(inv, s.page, s.y + 12.0);
    var n := TermsOps(inv.paymentTerms, inv.notes, m.page, m.y);
    var foot := FooterOps(biz, n.page);
    assert InvoiceTail(inv, biz, page, y) == s.ops + m.ops + n.ops + foot;
    TermsLines(inv.paymentTerms, inv.notes, m.page, m.y);
    TotalsHide(inv.pricing, page, y, PaymentTermsLabel);
    PaymentHides(inv, s.page, s.y + 12.0, PaymentTermsLabel);
    FooterHides(biz, n.page, PaymentTermsLabel);
    Shows4(s.ops, m.ops, n.ops, foot, Caption(PaymentTermsLabel));
  }

  lemma InvoiceTailAmounts(inv: Invoice, biz: BusinessInfo, page: nat, y: real)
    ensures var t := InvoiceTail(inv, biz, page, y);
      Shows(t, Money(Plain, inv.pricing.grandTotal)) && Shows(t, Status(inv.status))
      && (inv.amountPaid > 0.0 ==>
            Shows(t, Money(PaidPrefix, inv.amountPaid)) && Shows(t, Money(BalancePrefix, inv.balanceDue)))
  {
    var s := TotalsOps(inv.pricing, page, y);
    var m := PaymentOps(inv, s.page, s.y + 12.0);
    var n := TermsOps(inv.paymentTerms, inv.notes, m.page, m.y);
    var foot := FooterOps(biz, n.page);
    assert InvoiceTail(inv, biz, page, y) == s.ops + m.ops + n.ops + foot;
    TotalsAmounts(inv.pricing, page, y);
    PaymentLines(inv, s.page, s.y + 12.0);
    Shows4(s.ops, m.ops, n.ops, foot, Money(Plain, inv.pricing.grandTotal));
    Shows4(s.ops, m.ops, n.ops, foot, Status(inv.status));
    Shows4(s.ops, m.ops, n.ops, foot, Money(PaidPrefix, inv.amountPaid));
    Shows4(s.ops, m.ops, n.ops, foot, Money(BalancePrefix, inv.balanceDue));
  }

  /** The invoice PDF has exactly one row per stored line, in order, numbered
      from 1. */
  lemma InvoiceRows(inv: Invoice, biz: BusinessInfo)
    ensures RowNumbers(InvoiceLayout(inv, biz)) == Numbering(0, |inv.items.GetOr([])|)
  {
    var f := FrontOps(biz, InvoiceTitle, inv.number, DateLabel, inv.date, DueDateLabel, inv.dueDate, inv.client);
    var r := RowsFrom(inv.items.GetOr([]), 0, f.page, f.y);
    var t := InvoiceTail(inv, biz, r.page, r.y);
    InvoiceLayoutParts(inv, biz);
    RowsNumbered(inv.items.GetOr([]), f.page, f.y);
    FrontNoRows(biz, InvoiceTitle, inv.number, DateLabel, inv.date, DueDateLabel, inv.dueDate, inv.client);
    InvoiceTailNoRows(inv, biz, r.page, r.y);
    RowsBetween(f.ops, r.ops, t);
  }

  /** The invoice PDF shows the discount line exactly when the stored discount
      is positive. */
  lemma InvoiceDiscountLine(inv: Invoice, biz: BusinessInfo)
    ensures Shows(InvoiceLayout(inv, biz), Caption(DiscountLabel)) <==> inv.pricing.discountAmount > 0.0
  {
    var f := FrontOps(biz, InvoiceTitle, inv.number, DateLabel, inv.date, DueDateLabel, inv.dueDate, inv.client);
    var r := RowsFrom(inv.items.GetOr([]), 0, f.page, f.y);
    var t := InvoiceTail(inv, biz, r.page, r.y);
    InvoiceLayoutParts(inv, biz);
    InvoiceTailDiscount(inv, biz, r.page, r.y);
    FrontHides(biz, InvoiceTitle, inv.number, DateLabel, inv.date, DueDateLabel, inv.dueDate, inv.client, DiscountLabel);
    RowsHide(inv.items.GetOr([]), f.page, f.y, DiscountLabel);
    ShowsAfterRows(f.ops, r.ops, t, Caption(DiscountLabel));
  }

  /** The invoice PDF shows the payment-terms block exactly when there are
      terms. */
  lemma InvoiceTermsLine(inv: Invoice, biz: BusinessInfo)
    ensures Shows(InvoiceLayout(inv, biz), Caption(PaymentTermsLabel)) <==> inv.paymentTerms != ""
  {
    var f := FrontOps(biz, InvoiceTitle, inv.number, DateLabel, inv.date, DueDateLabel, inv.dueDate, inv.client);
    var r := RowsFrom(inv.items.GetOr([]), 0, f.page, f.y);
    var t := InvoiceTail(inv, biz, r.page, r.y);
    InvoiceLayoutParts(inv, biz);
    InvoiceTailTerms(inv, biz, r.page, r.y);
    FrontHides(biz, InvoiceTitle, inv.number, DateLabel, inv.date, DueDateLabel, inv.dueDate, inv.client, PaymentTermsLabel);
    RowsHide(inv.items.GetOr([]), f.page, f.y, PaymentTermsLabel);
    ShowsAfterRows(f.ops, r.ops, t, Caption(PaymentTermsLabel));
  }

  /** The invoice PDF prints the stored grand total and the upper-cased status
      and, once something was paid, the amount paid and the balance due. */
  lemma InvoiceAmounts(inv: Invoice, biz: BusinessInfo)
    ensures var l := InvoiceLayout(inv, biz);
      Shows(l, Money(Plain, inv.pricing.grandTotal)) && Shows(l, Status(inv.status))
      && (inv.amountPaid > 0.0 ==>
            Shows(l, Money(PaidPrefix, inv.amountPaid)) && Shows(l, Money(BalancePrefix, inv.balanceDue)))
  {
    var f := FrontOps(biz, InvoiceTitle, inv.number, DateLabel, inv.date, DueDateLabel, inv.dueDate, inv.client);
    var r := RowsFrom(inv.items.GetOr([]), 0, f.page, f.y);
    var t := InvoiceTail(inv, biz, r.page, r.y);
    InvoiceLayoutParts(inv, biz);
    InvoiceTailAmounts(inv, biz, r.page, r.y);
    ShowsAppend(f.ops + r.ops, t, Money(Plain, inv.pricing.grandTotal));
    ShowsAppend(f.ops + r.ops, t, Status(inv.status));
    ShowsAppend(f.ops + r.ops, t, Money(PaidPrefix, inv.amountPaid));
    ShowsAppend(f.ops + r.ops, t, Money(BalancePrefix, inv.balanceDue));
  }

  // ---------------------------------------------------------------------
  // The document and the drawing methods
  // ---------------------------------------------------------------------

  /** The jsPDF document: what has been drawn, the current page and the name
      it was saved under. */
  class PdfDocument {
    var ops: seq<Op>
    var page: nat
    var savedAs: Option<string>

    constructor ()
      ensures ops == [] && page == 1 && savedAs == None
    {
      ops, page, savedAs := [], 1, None;
    }

    method AddText(y: real, piece: Piece)
      modifies this
      ensures ops == old(ops) + [Text(old(page), y, piece)] && page == old(page) && savedAs == old(savedAs)
    {
      ops := ops + [Text(page, y, piece)];
    }

    method AddLine(y: real)
      modifies this
      ensures ops == old(ops) + [Line(old(page), y)] && page == old(page) && savedAs == old(savedAs)
    {
      ops := ops + [Line(page, y)];
    }

    method AddRect(y: real)
      modifies this
      ensures ops == old(ops) + [Rect(old(page), y)] && page == old(page) && savedAs == old(savedAs)
    {
      ops := ops + [Rect(page, y)];
    }

    method AddPage()
      modifies this
      ensures ops == old(ops) + [NewPage] && page == old(page) + 1 && savedAs == old(savedAs)
    {
      ops := ops + [NewPage];
      page := page + 1;
    }

    method Save(name: string)
      modifies this
      ensures ops == old(ops) && page == old(page) && savedAs == Some(name)
    {
      savedAs := Some(name);
    }

    method DrawHeader(biz: BusinessInfo, title: Label, number: string, firstCaption: Label, first: Option<int>,
                      secondCaption: Label, second: Option<int>) returns (y: real)
      modifies this
      ensures ops == old(ops) + HeaderOps(biz, title, number, firstCaption, first, secondCaption, second, old(page))
      ensures page == old(page) && savedAs == old(savedAs) && y == HEADER_END
    {
      ghost var start := ops;
      y := MARGIN;
      AddText(y, Str(biz.companyName));
      y := y + 8.0;
      AddText(y, Caption(Tagline));
      y := y + 5.0;
      AddText(y, Joined([biz.companyEmail, biz.companyPhone]));
      y := y + 5.0;
      AddText(y, Str(biz.companyAddress));
      AddText(MARGIN, Caption(title));
      AddText(MARGIN + 10.0, Str(number));
      AddText(MARGIN + 17.0, Day(firstCaption, first));
      AddText(MARGIN + 23.0, Day(secondCaption, second));
      y := y + 12.0;
      AddLine(y);
      y := y + 15.0;
      assert ops == start + HeaderOps(biz, title, number, firstCaption, first, secondCaption, second, page);
    }

    /** The header, the client block and the table header, on the first page. */
    method DrawFront(biz: BusinessInfo, title: Label, number: string, firstCaption: Label, first: Option<int>,
                     secondCaption: Label, second: Option<int>, c: Client) returns (y: real)
      requires page == 1
      modifies this
      ensures ops == old(ops) + FrontOps(biz, title, number, firstCaption, first, secondCaption, second, c).ops
      ensures y == FrontOps(biz, title, number, firstCaption, first, secondCaption, second, c).y
      ensures page == 1 && savedAs == old(savedAs)
    {
      ghost var start := ops;
      y := DrawHeader(biz, title, number, firstCaption, first, secondCaption, second);
      ghost var header := ops;
      y := DrawClient(c, y);
      ghost var client := ops;
      y := DrawTableHeader(y);
      assert ops == start + HeaderOps(biz, title, number, firstCaption, first, secondCaption, second, 1)
                    + ClientOps(c, 1, HEADER_END).ops + TableHeaderOps(1, ClientOps(c, 1, HEADER_END).y).ops;
    }

    /** `if (field) { addText(field, …); yPos += 5; }` */
    method DrawOptional(field: string, y0: real) returns (y: real)
      modifies this
      ensures ops == old(ops) + OptionalField(field, old(page), y0).ops
      ensures y == OptionalField(field, old(page), y0).y
      ensures page == old(page) && savedAs == old(savedAs)
    {
      y := y0;
      if field != "" {
        AddText(y, Str(field));
        y := y + 5.0;
      }
    }

    method DrawClient(c: Client, y0: real) returns (y: real)
      modifies this
      ensures ops == old(ops) + ClientOps(c, old(page), y0).ops && y == ClientOps(c, old(page), y0).y
      ensures page == old(page) && savedAs == old(savedAs)
    {
      ghost var start := ops;
      y := y0;
      AddText(y, Caption(BillTo));
      y := y + 6.0;
      AddText(y, Str(c.name));
      y := y + 6.0;
      ghost var named := ops;
      y := DrawOptional(c.businessName, y);
      y := DrawOptional(c.email, y);
      y := DrawOptional(c.phone, y);
      y := DrawOptional(c.address, y);
      y := y + 10.0;
      assert named == start + [Text(page, y0, Caption(BillTo)), Text(page, y0 + 6.0, Str(c.name))];
    }

    method DrawTableHeader(y0: real) returns (y: real)
      modifies this
      ensures ops == old(ops) + TableHeaderOps(old(page), y0).ops && y == TableHeaderOps(old(page), y0).y
      ensures page == old(page) && savedAs == old(savedAs)
    {
      ghost var start := ops;
      AddRect(y0 - 4.0);
      AddText(y0 + 2.0, Caption(RowHeading));
      AddText(y0 + 2.0, Caption(ServiceHeading));
      AddText(y0 + 2.0, Caption(QtyHeading));
      AddText(y0 + 2.0, Caption(RateHeading));
      AddText(y0 + 2.0, Caption(AmountHeading));
      y := y0 + 12.0;
      assert ops == start + TableHeaderOps(page, y0).ops;
    }

    /** Row `n` at baseline `y0`: its number, service name, the description
        4 below when there is one, quantity, rate and amount back on the
        baseline, then the separator. */
    method DrawRowBody(it: Item, n: nat, y0: real) returns (y: real)
      modifies this
      ensures ops == old(ops) + RowOps(it, n, old(page), y0) && y == y0 + RowStep(it)
      ensures page == old(page) && savedAs == old(savedAs)
    {
      ghost var start := ops;
      y := y0;
      AddText(y, RowNumber(n));
      AddText(y, Str(it.serviceName));
      ghost var named := ops;
      if it.description.Some? && it.description.value != "" {
        y := y + 4.0;
        AddText(y, Str(it.description.value));
      }
      y := y - (if HasDescription(it) then 4.0 else 0.0);
      ghost var described := ops;
      AddText(y, Num(it.quantity));
      AddText(y, Money(Plain, it.rate));
      AddText(y, Money(Plain, it.amount));
      y := y + (if HasDescription(it) then 12.0 else 8.0);
      AddLine(y - 2.0);
      assert named == start + [Text(page, y0, RowNumber(n)), Text(page, y0, Str(it.serviceName))];
      assert described == named + (if HasDescription(it) then [Text(page, y0 + 4.0, Str(it.description.value))] else []);
      assert ops == described + [Text(page, y0, Num(it.quantity)), Text(page, y0, Money(Plain, it.rate)),
                                 Text(page, y0, Money(Plain, it.amount)), Line(page, y0 + RowStep(it) - 2.0)];
    }

    /** One iteration of `items.forEach`: break the page when the row would
        start within 80 of the bottom, then draw row `n`. */
    method DrawRow(it: Item, n: nat, y0: real) returns (y: real)
      modifies this
      ensures ops == old(ops) + RowHead(it, n, old(page), y0).ops
      ensures page == RowHead(it, n, old(page), y0).page && y == RowHead(it, n, old(page), y0).y
      ensures savedAs == old(savedAs)
    {
      ghost var start := ops;
      y := y0;
      if y > PAGE_HEIGHT - 80.0 {
        AddPage();
        y := MARGIN;
      }
      y := DrawRowBody(it, n, y);
    }

    method DrawRows(items: seq<Item>, y0: real) returns (y: real)
      modifies this
      ensures ops == old(ops) + RowsFrom(items, 0, old(page), y0).ops
      ensures page == RowsFrom(items, 0, old(page), y0).page && y == RowsFrom(items, 0, old(page), y0).y
      ensures savedAs == old(savedAs)
    {
      y := y0;
      var i := 0;
      while i < |items|
        invariant 0 <= i <= |items|
        invariant ops + RowsFrom(items, i, page, y).ops == old(ops) + RowsFrom(items, 0, old(page), y0).ops
        invariant RowsFrom(items, i, page, y).page == RowsFrom(items, 0, old(page), y0).page
        invariant RowsFrom(items, i, page, y).y == RowsFrom(items, 0, old(page), y0).y
        invariant savedAs == old(savedAs)
        decreases |items| - i
      {
        ghost var before := ops;
        ghost var h := RowHead(items[i], i + 1, page, y);
        ghost var rest := RowsFrom(items, i + 1, h.page, h.y);
        assert RowsFrom(items, i, page, y).ops == h.ops + rest.ops;
        y := DrawRow(items[i], i + 1, y);
        AppendAssoc(before, h.ops, rest.ops);
        i := i + 1;
      }
    }

    /** The discount line, drawn only when the stored discount is positive. */
    method DrawDiscount(p: Pricing, y0: real) returns (y: real)
      modifies this
      ensures ops == old(ops) + DiscountOps(p, old(page), y0)
      ensures y == if p.discountAmount > 0.0 then y0 + 7.0 else y0
      ensures page == old(page) && savedAs == old(savedAs)
    {
      y := y0;
      if p.discountAmount > 0.0 {
        AddText(y, Caption(DiscountLabel));
        AddText(y, Money(Minus, p.discountAmount));
        y := y + 7.0;
      }
    }

    /** The GST line, drawn only when the stored GST is positive. */
    method DrawGst(p: Pricing, y0: real) returns (y: real)
      modifies this
      ensures ops == old(ops) + GstOps(p, old(page), y0)
      ensures y == if p.gstAmount > 0.0 then y0 + 7.0 else y0
      ensures page == old(page) && savedAs == old(savedAs)
    {
      y := y0;
      if p.gstAmount > 0.0 {
        AddText(y, GstCaption(p.gstPercentage));
        AddText(y, Money(Plain, p.gstAmount));
        y := y + 7.0;
      }
    }

    method DrawTotals(p: Pricing, y0: real) returns (y: real)
      modifies this
      ensures ops == old(ops) + TotalsOps(p, old(page), y0).ops && y == TotalsOps(p, old(page), y0).y
      ensures page == old(page) && savedAs == old(savedAs)
    {
      ghost var start := ops;
      y := y0 + 5.0;
      AddText(y, Caption(SubtotalLabel));
      AddText(y, Money(Plain, p.subtotal));
      y := y + 7.0;
      ghost var afterSubtotal := ops;
      assert afterSubtotal == start + SubtotalOps(p, page, y0 + 5.0);
      y := DrawDiscount(p, y);
      y := DrawGst(p, y);
      ghost var afterGst := ops;
      AddLine(y);
      y := y + 7.0;
      AddText(y, Caption(GrandTotalLabel));
      AddText(y, Money(Plain, p.grandTotal));
      assert ops == afterGst + GrandTotalOps(p, page, y - 7.0);
    }

    method DrawPayment(inv: Invoice, y0: real) returns (y: real)
      modifies this
      ensures ops == old(ops) + PaymentOps(inv, old(page), y0).ops && y == PaymentOps(inv, old(page), y0).y
      ensures page == old(page) && savedAs == old(savedAs)
    {
      ghost var start := ops;
      y := y0;
      AddText(y, Status(inv.status));
      if inv.amountPaid > 0.0 {
        y := y + 6.0;
        AddText(y, Money(PaidPrefix, inv.amountPaid));
        y := y + 5.0;
        AddText(y, Money(BalancePrefix, inv.balanceDue));
      }
      y := y + 15.0;
    }

    /** A terms or notes block, drawn only when its text is non-empty. The
        invoice omits the final 10 after its notes; nothing drawn later
        depends on the cursor then. */
    method DrawBlock(heading: Label, body: string, y0: real) returns (y: real)
      modifies this
      ensures ops == old(ops) + Block(heading, body, old(page), y0).ops && y == Block(heading, body, old(page), y0).y
      ensures page == old(page) && savedAs == old(savedAs)
    {
      y := y0;
      if body != "" {
        AddText(y, Caption(heading));
        y := y + 6.0;
        AddText(y, Str(body));
        y := y + 10.0;
      }
    }

    method DrawTerms(terms: string, notes: string, y0: real) returns (y: real)
      modifies this
      ensures ops == old(ops) + TermsOps(terms, notes, old(page), y0).ops
      ensures page == TermsOps(terms, notes, old(page), y0).page && y == TermsOps(terms, notes, old(page), y0).y
      ensures savedAs == old(savedAs)
    {
      ghost var start := ops;
      y := y0;
      if y > PAGE_HEIGHT - 60.0 {
        AddPage();
        y := MARGIN;
      }
      ghost var broken := ops;
      y := DrawBlock(PaymentTermsLabel, terms, y);
      y := DrawBlock(NotesLabel, notes, y);
    }

    method DrawFooter(biz: BusinessInfo)
      modifies this
      ensures ops == old(ops) + FooterOps(biz, old(page))
      ensures page == old(page) && savedAs == old(savedAs)
    {
      ghost var start := ops;
      AddLine(PAGE_HEIGHT - 20.0 - 5.0);
      AddText(PAGE_HEIGHT - 20.0, Caption(ThankYou));
      AddText(PAGE_HEIGHT - 20.0 + 6.0, Joined([biz.companyName, biz.companyWebsite, biz.companyEmail]));
      assert ops == start + FooterOps(biz, page);
    }
  }

  lemma QuotationTailParts(q: Quotation, biz: BusinessInfo, page: nat, y: real)
    ensures var t := TotalsOps(q.pricing, page, y);
      var n := TermsOps(q.paymentTerms, q.notes, t.page, t.y + 20.0);
      QuotationTail(q, biz, page, y) == t.ops + n.ops + FooterOps(biz, n.page)
  {
  }

  lemma InvoiceTailParts(inv: Invoice, biz: BusinessInfo, page: nat, y: real)
    ensures var t := TotalsOps(inv.pricing, page, y);
      var m := PaymentOps(inv, t.page, t.y + 12.0);
      var n := TermsOps(inv.paymentTerms, inv.notes, m.page, m.y);
      InvoiceTail(inv, biz, page, y) == t.ops + m.ops + n.ops + FooterOps(biz, n.page)
  {
  }

  lemma QuotationLayoutFrom(q: Quotation, biz: BusinessInfo, f: Drawn, r: Drawn, t: Drawn, n: Drawn)
    requires f == FrontOps(biz, QuotationTitle, q.number, DateLabel, q.date, ValidUntilLabel, q.validUntil, q.client)
    requires r == RowsFrom(q.items.GetOr([]), 0, f.page, f.y)
    requires t == TotalsOps(q.pricing, r.page, r.y)
    requires n == TermsOps(q.paymentTerms, q.notes, t.page, t.y + 20.0)
    ensures QuotationLayout(q, biz) == f.ops + r.ops + t.ops + n.ops + FooterOps(biz, n.page)
  {
  }

  lemma InvoiceLayoutFrom(inv: Invoice, biz: BusinessInfo, f: Drawn, r: Drawn, t: Drawn, m: Drawn, n: Drawn)
    requires f == FrontOps(biz, InvoiceTitle, inv.number, DateLabel, inv.date, DueDateLabel, inv.dueDate, inv.client)
    requires r == RowsFrom(inv.items.GetOr([]), 0, f.page, f.y)
    requires t == TotalsOps(inv.pricing, r.page, r.y)
    requires m == PaymentOps(inv, t.page, t.y + 12.0)
    requires n == TermsOps(inv.paymentTerms, inv.notes, m.page, m.y)
    ensures InvoiceLayout(inv, biz) == f.ops + r.ops + t.ops + m.ops + n.ops + FooterOps(biz, n.page)
  {
  }

  /** `generateQuotationPDF`: draws every section in order on a new document
      and saves it under the quotation number. */
  method GenerateQuotationPdf(q: Quotation, biz: BusinessInfo) returns (doc: PdfDocument)
    ensures fresh(doc)
    ensures doc.ops == QuotationLayout(q, biz) && doc.savedAs == Some(q.number + ".pdf")
  {
    doc := new PdfDocument();
    ghost var f := FrontOps(biz, QuotationTitle, q.number, DateLabel, q.date, ValidUntilLabel, q.validUntil, q.client);
    var y := doc.DrawFront(biz, QuotationTitle, q.number, DateLabel, q.date, ValidUntilLabel, q.validUntil, q.client);
    assert doc.ops == f.ops && doc.page == f.page && y == f.y;
    ghost var r := RowsFrom(q.items.GetOr([]), 0, f.page, f.y);
    y := doc.DrawRows(q.items.GetOr([]), y);
    assert doc.ops == f.ops + r.ops && doc.page == r.page && y == r.y;
    ghost var t := TotalsOps(q.pricing, r.page, r.y);
    y := doc.DrawTotals(q.pricing, y);
    assert doc.ops == f.ops + r.ops + t.ops && doc.page == t.page && y == t.y;
    y := y + 20.0;
    ghost var n := TermsOps(q.paymentTerms, q.notes, t.page, t.y + 20.0);
    y := doc.DrawTerms(q.paymentTerms, q.notes, y);
    assert doc.ops == f.ops + r.ops + t.ops + n.ops && doc.page == n.page;
    doc.DrawFooter(biz);
    assert doc.ops == f.ops + r.ops + t.ops + n.ops + FooterOps(biz, n.page);
    QuotationLayoutFrom(q, biz, f, r, t, n);
    doc.Save(q.number + ".pdf");
  }

  /** `generateInvoicePDF`: as for a quotation, with the status and payment
      lines between the totals and the terms. */
  method GenerateInvoicePdf(inv: Invoice, biz: BusinessInfo) returns (doc: PdfDocument)
    ensures fresh(doc)
    ensures doc.ops == InvoiceLayout(inv, biz) && doc.savedAs == Some(inv.number + ".pdf")
  {
    doc := new PdfDocument();
    ghost var f := FrontOps(biz, InvoiceTitle, inv.number, DateLabel, inv.date, DueDateLabel, inv.dueDate, inv.client);
    var y := doc.DrawFront(biz, InvoiceTitle, inv.number, DateLabel, inv.date, DueDateLabel, inv.dueDate, inv.client);
    assert doc.ops == f.ops && doc.page == f.page && y == f.y;
    ghost var r := RowsFrom(inv.items.GetOr([]), 0, f.page, f.y);
    y := doc.DrawRows(inv.items.GetOr([]), y);
    assert doc.ops == f.ops + r.ops && doc.page == r.page && y == r.y;
    ghost var t := TotalsOps(inv.pricing, r.page, r.y);
    y := doc.DrawTotals(inv.pricing, y);
    assert doc.ops == f.ops + r.ops + t.ops && doc.page == t.page && y == t.y;
    y := y + 12.0;
    ghost var m := PaymentOps(inv, t.page, t.y + 12.0);
    y := doc.DrawPayment(inv, y);
    assert doc.ops == f.ops + r.ops + t.ops + m.ops && doc.page == m.page && y == m.y;
    ghost var n := TermsOps(inv.paymentTerms, inv.notes, m.page, m.y);
    y := doc.DrawTerms(inv.paymentTerms, inv.notes, y);
    assert doc.ops == f.ops + r.ops + t.ops + m.ops + n.ops && doc.page == n.page;
    doc.DrawFooter(biz);
    assert doc.ops == f.ops + r.ops + t.ops + m.ops + n.ops + FooterOps(biz, n.page);
    InvoiceLayoutFrom(inv, biz, f, r, t, m, n);
    doc.Save(inv.number + ".pdf");
  }
}
