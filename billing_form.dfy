/** The form logic that the invoice editor and the quotation editor share
    line for line: the totals chain of `calculateTotals` and the edits to the
    list of lines (`handleAddItem`, `handleRemoveItem`, `handleItemChange`,
    `handleSelectPreset`). Each editor's class calls these on its own state. */
module BillingForm {
  import opened Wrappers
  import opened BillingTypes

  // ---------------------------------------------------------------------
  // Totals
  // ---------------------------------------------------------------------

  /** The sum of the line amounts, folded from the left like `reduce`. */
  function Subtotal(items: seq<Item>): real
    decreases |items|
  {
    if items == [] then 0.0 else Subtotal(items[..|items| - 1]) + items[|items| - 1].amount
  }

  /** The discount: nothing unless it is switched on and its value is non-zero
      (`0` is falsy), then a percentage of the subtotal or the value itself. */
  function Discount(subtotal: real, enableDiscount: bool, discountType: DiscountType,
                    discountValue: real): real
  {
    if enableDiscount && discountValue != 0.0 then
      if discountType == Percentage then subtotal * discountValue / 100.0 else discountValue
    else 0.0
  }

  /** `gst_percentage || 18`: a percentage of 0 counts as 18. */
  function EffectiveGstPercentage(p: real): real {
    if p == 0.0 then 18.0 else p
  }

  datatype Totals = Totals(subtotal: real, discountAmount: real, taxableAmount: real,
                           gstAmount: real, grandTotal: real)

  /** `calculateTotals`: subtotal, then discount, then taxable amount, then GST,
      then grand total. Reads the discount and GST settings from `p`. */
  function CalculateTotals(items: seq<Item>, p: Pricing, enableGst: bool, enableDiscount: bool): Totals {
    TotalsOfSubtotal(Subtotal(items), p, enableGst, enableDiscount)
  }

  /** The part of the chain after the subtotal. */
  function TotalsOfSubtotal(subtotal: real, p: Pricing, enableGst: bool, enableDiscount: bool): Totals {
    var discount := Discount(subtotal, enableDiscount, p.discountType, p.discountValue);
    var taxable := subtotal - discount;
    var gst := if enableGst then taxable * EffectiveGstPercentage(p.gstPercentage) / 100.0 else 0.0;
    Totals(subtotal, discount, taxable, gst, taxable + gst)
  }

  /** The form's pricing with the computed amounts written into it. */
  function WithTotals(p: Pricing, t: Totals): Pricing {
    p.(subtotal := t.subtotal, discountAmount := t.discountAmount,
       taxableAmount := t.taxableAmount, gstAmount := t.gstAmount, grandTotal := t.grandTotal)
  }

  /** The invoice form's balance: grand total less `amount_paid`, with no clamp. */
  function FormBalanceDue(t: Totals, amountPaid: real): real {
    t.grandTotal - amountPaid
  }

  lemma {:induction false} SubtotalAppend(a: seq<Item>, b: seq<Item>)
    ensures Subtotal(a + b) == Subtotal(a) + Subtotal(b)
    decreases |b|
  {
    if b == [] {
      assert a + b == a;
    } else {
      var n := |b| - 1;
      assert (a + b)[..|a + b| - 1] == a + b[..n];
      assert (a + b)[|a + b| - 1] == b[n];
      SubtotalAppend(a, b[..n]);
    }
  }

  lemma SubtotalSingle(it: Item)
    ensures Subtotal([it]) == it.amount
  {
    assert [it][..0] == [];
  }

  /** A line list whose every amount is non-negative has a non-negative subtotal. */
  lemma {:induction false} SubtotalNonNegative(items: seq<Item>)
    requires forall i :: 0 <= i < |items| ==> items[i].amount >= 0.0
    ensures Subtotal(items) >= 0.0
    decreases |items|
  {
    if items != [] {
      SubtotalNonNegative(items[..|items| - 1]);
    }
  }

  /** Every computed pricing keeps the chain taxable = subtotal − discount and
      grand = taxable + GST, and the subtotal is the sum of the lines. */
  lemma TotalsConsistent(items: seq<Item>, p: Pricing, enableGst: bool, enableDiscount: bool)
    ensures PricingConsistent(WithTotals(p, CalculateTotals(items, p, enableGst, enableDiscount)))
    ensures CalculateTotals(items, p, enableGst, enableDiscount).subtotal == Subtotal(items)
  {
  }

  /** With the discount off, or its value 0, the grand total is the subtotal,
      raised by the GST rate when GST is on. */
  lemma TotalsWithoutDiscount(items: seq<Item>, p: Pricing, enableGst: bool, enableDiscount: bool)
    requires !enableDiscount || p.discountValue == 0.0
    ensures var t := CalculateTotals(items, p, enableGst, enableDiscount);
      t.discountAmount == 0.0 && t.taxableAmount == Subtotal(items)
      && t.grandTotal == (if enableGst then Subtotal(items) * (1.0 + EffectiveGstPercentage(p.gstPercentage) / 100.0)
                          else Subtotal(items))
  {
  }

  /** A percentage discount `v` with GST at rate `g` multiplies the subtotal by
      (1 − v/100)(1 + g/100). */
  lemma TotalsWithPercentageDiscount(items: seq<Item>, p: Pricing)
    requires p.discountType == Percentage
    ensures var t := CalculateTotals(items, p, true, true);
      var g := EffectiveGstPercentage(p.gstPercentage);
      t.grandTotal == Subtotal(items) * (1.0 - p.discountValue / 100.0) * (1.0 + g / 100.0)
  {
  }

  /** GST of 0 per cent is charged at 18 per cent. */
  lemma ZeroGstChargesEighteen(items: seq<Item>, p: Pricing, enableGst: bool, enableDiscount: bool)
    ensures CalculateTotals(items, p.(gstPercentage := 0.0), enableGst, enableDiscount)
         == CalculateTotals(items, p.(gstPercentage := 18.0), enableGst, enableDiscount)
  {
  }

  /** With GST off nothing is charged, whatever the percentage. */
  lemma GstOffChargesNothing(items: seq<Item>, p: Pricing, enableDiscount: bool)
    ensures var t := CalculateTotals(items, p, false, enableDiscount);
      t.gstAmount == 0.0 && t.grandTotal == t.taxableAmount
  {
  }

  /** For non-negative lines, a percentage discount of at most 100 and a
      non-negative GST rate, the grand total lies between 0 and the subtotal
      with GST. */
  lemma TotalsBounded(items: seq<Item>, p: Pricing, enableGst: bool, enableDiscount: bool)
    requires forall i :: 0 <= i < |items| ==> items[i].amount >= 0.0
    requires p.discountType == Percentage && 0.0 <= p.discountValue <= 100.0
    requires p.gstPercentage >= 0.0
    ensures var t := CalculateTotals(items, p, enableGst, enableDiscount);
      0.0 <= t.grandTotal <= Subtotal(items) * (1.0 + EffectiveGstPercentage(p.gstPercentage) / 100.0)
  {
    SubtotalNonNegative(items);
    SubtotalTotalsBounded(Subtotal(items), p, enableGst, enableDiscount);
  }

  lemma SubtotalTotalsBounded(s: real, p: Pricing, enableGst: bool, enableDiscount: bool)
    requires s >= 0.0
    requires p.discountType == Percentage && 0.0 <= p.discountValue <= 100.0
    requires p.gstPercentage >= 0.0
    ensures var t := TotalsOfSubtotal(s, p, enableGst, enableDiscount);
      0.0 <= t.grandTotal <= s * (1.0 + EffectiveGstPercentage(p.gstPercentage) / 100.0)
  {
    var g := EffectiveGstPercentage(p.gstPercentage);
    var d := Discount(s, enableDiscount, p.discountType, p.discountValue);
    PercentageDiscountBounded(s, enableDiscount, p.discountValue);
    var gst := if enableGst then (s - d) * g / 100.0 else 0.0;
    assert TotalsOfSubtotal(s, p, enableGst, enableDiscount).grandTotal == (s - d) + gst;
    GstBound(s - d, s, g, enableGst);
  }

  lemma PercentageDiscountBounded(s: real, enableDiscount: bool, v: real)
    requires s >= 0.0 && 0.0 <= v <= 100.0
    ensures 0.0 <= Discount(s, enableDiscount, Percentage, v) <= s
  {
    if enableDiscount && v != 0.0 {
      PercentageAtMostWhole(s, v);
    }
  }

  lemma PercentageAtMostWhole(s: real, v: real)
    requires s >= 0.0 && 0.0 <= v <= 100.0
    ensures 0.0 <= s * v / 100.0 <= s
  {
    assert s * v <= s * 100.0 by {
      assert s * (100.0 - v) >= 0.0;
    }
  }

  lemma GstBound(x: real, s: real, g: real, enableGst: bool)
    requires 0.0 <= x <= s && g >= 0.0
    ensures var gst := if enableGst then x * g / 100.0 else 0.0;
      0.0 <= x + gst <= s * (1.0 + g / 100.0)
  {
    assert x * g <= s * g by {
      assert (s - x) * g >= 0.0;
    }
    assert x * g >= 0.0;
    assert s * (1.0 + g / 100.0) == s + s * g / 100.0;
  }

  /** A fixed discount larger than the subtotal is not clamped: the totals go
      negative. */
  lemma FixedDiscountNotClamped()
    ensures var p := ZERO_PRICING.(discountType := Fixed, discountValue := 150.0);
      var t := CalculateTotals([DEFAULT_ITEM.(quantity := 1.0, rate := 100.0, amount := 100.0)], p, true, true);
      t.taxableAmount == -50.0 && t.grandTotal == -59.0
  {
    SubtotalSingle(DEFAULT_ITEM.(quantity := 1.0, rate := 100.0, amount := 100.0));
  }

  /** Two lines of 2500 with 18% GST and no discount come to 5900. */
  lemma WorkedExample()
    ensures var it := DEFAULT_ITEM.(quantity := 2.0, rate := 2500.0, amount := 5000.0);
      CalculateTotals([it], ZERO_PRICING, true, false) == Totals(5000.0, 0.0, 5000.0, 900.0, 5900.0)
  {
    SubtotalSingle(DEFAULT_ITEM.(quantity := 2.0, rate := 2500.0, amount := 5000.0));
  }

  /** The form's balance is not clamped: paying more than the grand total makes it negative. */
  lemma FormBalanceNotClamped(t: Totals, amountPaid: real)
    requires amountPaid > t.grandTotal
    ensures FormBalanceDue(t, amountPaid) < 0.0
  {
  }

  // ---------------------------------------------------------------------
  // Editing the lines
  // ---------------------------------------------------------------------

  /** An edit made in one line's inputs. The number inputs pass
      `parseInt(v) || 1` and `parseFloat(v) || 0`. */
  datatype ItemChange = SetDescription(text: string) | SetQuantity(quantity: real) | SetRate(rate: real)

  /** `handleAddItem`: a default line numbered after the existing ones. */
  function AddItem(items: seq<Item>): seq<Item> {
    items + [DEFAULT_ITEM.(sortOrder := |items|)]
  }

  /** `items.filter((_, i) => i !== index)`. */
  function RemoveAt(items: seq<Item>, index: int): seq<Item> {
    if 0 <= index < |items| then items[..index] + items[index + 1..] else items
  }

  /** `handleRemoveItem`: removes the line only when there is more than one. */
  function RemoveItem(items: seq<Item>, index: int): seq<Item> {
    if |items| > 1 then RemoveAt(items, index) else items
  }

  /** The new line after one edit: a quantity or rate edit recomputes the amount
      from the other field, reading a missing (zero) quantity as 1 and rate as 0. */
  function ApplyChange(it: Item, c: ItemChange): Item {
    match c
    case SetDescription(text) => it.(description := Some(text))
    case SetQuantity(q) => it.(quantity := q, amount := q * it.rate)
    case SetRate(r) => it.(rate := r, amount := (if it.quantity == 0.0 then 1.0 else it.quantity) * r)
  }

  /** `handleItemChange`: only line `index` changes. */
  function ChangeItem(items: seq<Item>, index: int, c: ItemChange): seq<Item>
    requires 0 <= index < |items|
  {
    items[index := ApplyChange(items[index], c)]
  }

  /** `handleSelectPreset`: the line takes the preset's name and description. */
  function SelectPreset(items: seq<Item>, index: int, preset: Preset): seq<Item>
    requires 0 <= index < |items|
  {
    items[index := items[index].(serviceName := preset.name, description := Some(preset.description))]
  }

  /** Adding keeps every existing line, appends a zero-amount line numbered by
      the old length, and so leaves the subtotal unchanged. */
  lemma AddItemFacts(items: seq<Item>)
    ensures var r := AddItem(items);
      |r| == |items| + 1 && r[..|items|] == items
      && r[|items|].sortOrder == |items| && AmountConsistent(r[|items|])
      && Subtotal(r) == Subtotal(items)
  {
    SubtotalAppend(items, [DEFAULT_ITEM.(sortOrder := |items|)]);
    SubtotalSingle(DEFAULT_ITEM.(sortOrder := |items|));
  }

  /** Removing never empties a non-empty list; it drops exactly one line when
      there are several and the index is in range, and nothing otherwise. */
  lemma RemoveItemFacts(items: seq<Item>, index: int)
    requires |items| >= 1
    ensures |RemoveItem(items, index)| >= 1
    ensures |RemoveItem(items, index)| == |items| - 1 <==> |items| > 1 && 0 <= index < |items|
    ensures RemoveItem(items, index) == items <==> !(|items| > 1 && 0 <= index < |items|)
  {
  }

  /** Removing line `index` lowers the subtotal by that line's amount. */
  lemma RemoveItemSubtotal(items: seq<Item>, index: int)
    requires |items| > 1 && 0 <= index < |items|
    ensures Subtotal(RemoveItem(items, index)) == Subtotal(items) - items[index].amount
  {
    var pre, x, post := items[..index], items[index], items[index + 1..];
    assert RemoveItem(items, index) == pre + post;
    assert items == pre + [x] + post;
    SubtotalAround(pre, x, post);
    SubtotalAppend(pre, post);
  }

  /** The subtotal of a list split around one line. */
  lemma SubtotalAround(pre: seq<Item>, x: Item, post: seq<Item>)
    ensures Subtotal(pre + [x] + post) == Subtotal(pre) + x.amount + Subtotal(post)
  {
    SubtotalAppend(pre + [x], post);
    SubtotalAppend(pre, [x]);
    SubtotalSingle(x);
  }

  /** An edit rewrites line `index` only, and the subtotal moves by exactly the
      change of that line's amount. */
  lemma ChangeItemFacts(items: seq<Item>, index: int, c: ItemChange)
    requires 0 <= index < |items|
    ensures var r := ChangeItem(items, index, c);
      |r| == |items| && (forall j :: 0 <= j < |items| && j != index ==> r[j] == items[j])
      && Subtotal(r) == Subtotal(items) - items[index].amount + r[index].amount
  {
    var r := ChangeItem(items, index, c);
    var pre, post := items[..index], items[index + 1..];
    assert items == pre + [items[index]] + post;
    assert r == pre + [r[index]] + post;
    SubtotalAround(pre, items[index], post);
    SubtotalAround(pre, r[index], post);
  }

  /** A quantity edit, or a rate edit on a line with a quantity, leaves the line
      with amount = quantity × rate; a description edit leaves the amount alone.
      A rate edit on a line whose quantity is 0 prices it as one unit. */
  lemma ApplyChangeAmount(it: Item, c: ItemChange)
    ensures c.SetQuantity? ==> AmountConsistent(ApplyChange(it, c))
    ensures c.SetRate? && it.quantity != 0.0 ==> AmountConsistent(ApplyChange(it, c))
    ensures c.SetRate? && it.quantity == 0.0 ==> ApplyChange(it, c).amount == c.rate
    ensures c.SetDescription? ==> ApplyChange(it, c).amount == it.amount
  {
  }

  /** Picking a preset changes only the name and description of line `index`. */
  lemma SelectPresetFacts(items: seq<Item>, index: int, preset: Preset)
    requires 0 <= index < |items|
    ensures var r := SelectPreset(items, index, preset);
      |r| == |items| && Subtotal(r) == Subtotal(items)
      && r[index].serviceName == preset.name && r[index].description == Some(preset.description)
      && r[index].amount == items[index].amount
  {
    var r := SelectPreset(items, index, preset);
    assert items == items[..index] + [items[index]] + items[index + 1..];
    assert r == items[..index] + [r[index]] + items[index + 1..];
    SubtotalAppend(items[..index] + [items[index]], items[index + 1..]);
    SubtotalAppend(items[..index], [items[index]]);
    SubtotalAppend(items[..index] + [r[index]], items[index + 1..]);
    SubtotalAppend(items[..index], [r[index]]);
    SubtotalSingle(items[index]);
    SubtotalSingle(r[index]);
  }
}
