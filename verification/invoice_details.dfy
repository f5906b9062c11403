/**
 * The invoice page of `src/pages/dashboard/InvoiceDetails.jsx`: which invoice
 * a route id shows, its subtotal, 10% tax and total in integer cents, and the
 * status badge, icon and "Pay Now" rules.
 */
module InvoiceDetails {
  import opened Optional
  import opened Palette

  datatype LineItem = LineItem(description: string, quantity: int, unitPriceCents: int)

  /** An invoice with its line items; dates are left out. */
  datatype Invoice = Invoice(id: string, service: string, status: string,
                             paymentMethod: Option<string>, items: seq<LineItem>, notes: string)

  const MockInvoices: seq<Invoice> := [
    Invoice("INV-2025-001", "Basic Hosting", "Paid", Some("Credit Card"),
            [LineItem("Basic Hosting - 1 Year", 1, 4999)],
            "Thank you for your business."),
    Invoice("INV-2025-002", "Professional Hosting", "Unpaid", None,
            [LineItem("Professional Hosting - 1 Year", 1, 9999), LineItem("Daily Backups Add-on", 1, 999)],
            "Please make payment before the due date to avoid service interruption.")
  ]

  /** `findIndex`: the first position whose invoice has the id, if any. */
  function FirstWithId(invoices: seq<Invoice>, id: string): (k: Option<nat>)
    ensures k.Some? ==> k.value < |invoices| && invoices[k.value].id == id
    ensures k.Some? ==> forall j :: 0 <= j < k.value ==> invoices[j].id != id
    ensures k.None? ==> forall j :: 0 <= j < |invoices| ==> invoices[j].id != id
  {
    if |invoices| == 0 then None
    else if invoices[0].id == id then Some(0)
    else match FirstWithId(invoices[1..], id)
      case Some(k) => Some(k + 1)
      case None => None
  }

  /** `find(inv => inv.id === id) || invoices[0]`: the first match, else the first invoice. */
  function Lookup(invoices: seq<Invoice>, id: string): (r: Invoice)
    requires |invoices| > 0
    ensures r in invoices
    ensures (exists k :: 0 <= k < |invoices| && invoices[k].id == id) ==>
      r.id == id && exists k :: 0 <= k < |invoices| && invoices[k] == r && forall j :: 0 <= j < k ==> invoices[j].id != id
    ensures (forall k :: 0 <= k < |invoices| ==> invoices[k].id != id) ==> r == invoices[0]
  {
    match FirstWithId(invoices, id)
    case Some(k) => invoices[k]
    case None => invoices[0]
  }

  /** An unknown id shows the first mock invoice. */
  lemma UnknownIdFallsBack()
    ensures Lookup(MockInvoices, "INV-2025-004") == MockInvoices[0]
  {
  }

  // ---------------------------------------------------------------------------
  // money

  /** `items.reduce((sum, item) => sum + item.quantity * item.unitPrice, 0)`, in cents. */
  function Subtotal(items: seq<LineItem>): int {
    if |items| == 0 then 0 else items[0].quantity * items[0].unitPriceCents + Subtotal(items[1..])
  }

  lemma {:induction false} SubtotalConcat(a: seq<LineItem>, b: seq<LineItem>)
    ensures Subtotal(a + b) == Subtotal(a) + Subtotal(b)
  {
    if |a| == 0 {
      assert a + b == b;
    } else {
      assert (a + b)[1..] == a[1..] + b;
      SubtotalConcat(a[1..], b);
    }
  }

  /**
   * `Math.round(subtotal * 0.1 * 100) / 100`: a tenth of the subtotal, to the
   * nearest cent, with a half cent rounded up (`Math.round` rounds halves
   * towards +infinity).
   */
  function Tax(subtotalCents: int): (t: int)
    ensures -5 < 10 * t - subtotalCents <= 5
  {
    (subtotalCents + 5) / 10
  }

  /** The three figures under the line items. */
  datatype Totals = Totals(subtotal: int, tax: int, total: int)

  /** Subtotal, tax and total; the total of two whole-cent amounts needs no further rounding. */
  function TotalsOf(inv: Invoice): (r: Totals)
    ensures r.subtotal == Subtotal(inv.items)
    ensures -5 < 10 * r.tax - r.subtotal <= 5
    ensures r.total == r.subtotal + r.tax
  {
    var subtotal := Subtotal(inv.items);
    var tax := Tax(subtotal);
    Totals(subtotal, tax, subtotal + tax)
  }

  /** The second mock invoice: 109.98 + 11.00 tax = 120.98. */
  lemma MockTotals()
    ensures TotalsOf(MockInvoices[1]) == Totals(10998, 1100, 12098)
  {
  }

  // ---------------------------------------------------------------------------
  // status

  /** `statusBadge`: the colour family of the badge; unknown statuses are grey. */
  function BadgeTone(status: string): (t: Tone)
    ensures t == Green <==> status == "Paid"
    ensures t == Yellow <==> status == "Unpaid"
    ensures t == Red <==> status == "Overdue"
    ensures t == Blue <==> status == "Pending"
    ensures t == Gray <==> status !in {"Paid", "Unpaid", "Overdue", "Pending"}
  {
    match status
    case "Paid" => Green
    case "Unpaid" => Yellow
    case "Overdue" => Red
    case "Pending" => Blue
    case _ => Gray
  }

  /** `statusIcon`: a check for "Paid", a warning for "Overdue", a clock for anything else. */
  function StatusIcon(status: string): (i: Icon)
    ensures i == Check <==> status == "Paid"
    ensures i == Alert <==> status == "Overdue"
    ensures i == Clock <==> status != "Paid" && status != "Overdue"
  {
    match status
    case "Paid" => Check
    case "Overdue" => Alert
    case _ => Clock
  }

  /** The "Pay Now" button is offered on every invoice not yet paid. */
  function OffersPayNow(inv: Invoice): (b: bool)
    ensures b <==> inv.status != "Paid"
    ensures b <==> StatusIcon(inv.status) != Check
  {
    inv.status != "Paid"
  }
}
