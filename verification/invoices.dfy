/**
 * The invoice list of `src/pages/dashboard/Invoices.jsx`: search and status
 * filtering, the paid / outstanding / total figures, and the per-row rules
 * for the days line and the pay button. Amounts are integer cents.
 */
module Invoices {
  import opened Seqs
  import opened Text
  import opened Optional

  /** One invoice row; dates and the payment method are left out. */
  datatype Invoice = Invoice(id: string, service: string, amountCents: int, status: string)

  const MockInvoices: seq<Invoice> := [
    Invoice("INV-2025-001", "Basic Hosting", 4999, "Paid"),
    Invoice("INV-2025-002", "Professional Hosting", 9999, "Unpaid"),
    Invoice("INV-2025-003", "Domain Registration", 1299, "Paid"),
    Invoice("INV-2025-004", "Email Hosting", 2499, "Overdue"),
    Invoice("INV-2025-005", "Business Hosting", 14999, "Pending")
  ]

  const All: string := "all"
  const Paid: string := "Paid"

  /** The search term and the status drop-down. */
  datatype Query = Query(search: string, status: string)

  predicate Matches(q: Query, inv: Invoice) {
    && (ContainsIgnoringCase(inv.id, q.search) || ContainsIgnoringCase(inv.service, q.search))
    && (q.status == All || inv.status == q.status)
  }

  function MatchesQuery(q: Query): Invoice -> bool {
    (inv: Invoice) => Matches(q, inv)
  }

  /** `filteredInvoices`. */
  function FilteredInvoices(invoices: seq<Invoice>, q: Query): (r: seq<Invoice>)
    ensures forall inv :: inv in r <==>
      && inv in invoices
      && (ContainsIgnoringCase(inv.id, q.search) || ContainsIgnoringCase(inv.service, q.search))
      && (q.status == All || inv.status == q.status)
    ensures SubsequenceOf(r, invoices)
    ensures forall inv :: multiset(r)[inv] == if Matches(q, inv) then multiset(invoices)[inv] else 0
  {
    var r := Filter(invoices, MatchesQuery(q));
    FilterCounts(invoices, MatchesQuery(q));
    assert forall inv :: inv in r ==> MatchesQuery(q)(inv) by {
      forall inv | inv in r ensures MatchesQuery(q)(inv) {
        var i :| 0 <= i < |r| && r[i] == inv;
      }
    }
    assert forall inv :: inv in invoices && Matches(q, inv) ==> inv in r by {
      forall inv | inv in invoices && Matches(q, inv) ensures inv in r {
        var i :| 0 <= i < |invoices| && invoices[i] == inv;
        assert MatchesQuery(q)(invoices[i]);
      }
    }
    r
  }

  /** With an empty search and status "all" every invoice is listed, in order. */
  lemma EmptyQueryListsAll(invoices: seq<Invoice>)
    ensures FilteredInvoices(invoices, Query("", All)) == invoices
  {
    forall i | 0 <= i < |invoices| ensures MatchesQuery(Query("", All))(invoices[i]) {
      EmptyTermMatches(invoices[i].id);
    }
    FilterKeepsAll(invoices, MatchesQuery(Query("", All)));
  }

  // ---------------------------------------------------------------------------
  // amounts

  /** The `reduce((t, i) => t + i.amount, 0)` of a list. */
  function AmountSum(invoices: seq<Invoice>): int {
    if |invoices| == 0 then 0 else invoices[0].amountCents + AmountSum(invoices[1..])
  }

  lemma {:induction false} AmountSumConcat(a: seq<Invoice>, b: seq<Invoice>)
    ensures AmountSum(a + b) == AmountSum(a) + AmountSum(b)
  {
    if |a| == 0 {
      assert a + b == b;
    } else {
      assert (a + b)[1..] == a[1..] + b;
      AmountSumConcat(a[1..], b);
    }
  }

  predicate IsPaid(inv: Invoice) {
    inv.status == Paid
  }

  predicate IsOutstanding(inv: Invoice) {
    inv.status != Paid
  }

  /** `getTotalAmount`. */
  function TotalAmount(invoices: seq<Invoice>): int {
    AmountSum(invoices)
  }

  /** `getPaidAmount`. */
  function PaidAmount(invoices: seq<Invoice>): int {
    AmountSum(Filter(invoices, IsPaid))
  }

  /** `getUnpaidAmount`: every status other than "Paid" counts as outstanding. */
  function UnpaidAmount(invoices: seq<Invoice>): int {
    AmountSum(Filter(invoices, IsOutstanding))
  }

  /** The paid and the outstanding figures split the total: nothing is counted twice or missed. */
  lemma {:induction false} PaidPlusUnpaidIsTotal(invoices: seq<Invoice>)
    ensures PaidAmount(invoices) + UnpaidAmount(invoices) == TotalAmount(invoices)
  {
    if |invoices| > 0 {
      PaidPlusUnpaidIsTotal(invoices[1..]);
    }
  }

  /**
   * One more invoice adds its amount to the paid figure exactly when its
   * status is "Paid", and to the outstanding figure otherwise, whether it is
   * "Unpaid", "Pending", "Overdue" or any other status.
   */
  lemma AddingAnInvoice(invoices: seq<Invoice>, inv: Invoice)
    ensures PaidAmount(invoices + [inv]) == PaidAmount(invoices) + (if inv.status == Paid then inv.amountCents else 0)
    ensures UnpaidAmount(invoices + [inv]) == UnpaidAmount(invoices) + (if inv.status == Paid then 0 else inv.amountCents)
  {
    FilterConcat(invoices, [inv], IsPaid);
    FilterConcat(invoices, [inv], IsOutstanding);
    AmountSumConcat(Filter(invoices, IsPaid), Filter([inv], IsPaid));
    AmountSumConcat(Filter(invoices, IsOutstanding), Filter([inv], IsOutstanding));
  }

  /** The four summary cards. */
  datatype Summary = Summary(count: nat, total: int, paid: int, unpaid: int)

  /** The summary cards are computed from the whole list, whatever the filters show. */
  function SummaryOf(invoices: seq<Invoice>): (r: Summary)
    ensures r.count == |invoices|
    ensures r.total == AmountSum(invoices)
    ensures r.paid + r.unpaid == r.total
  {
    PaidPlusUnpaidIsTotal(invoices);
    Summary(|invoices|, TotalAmount(invoices), PaidAmount(invoices), UnpaidAmount(invoices))
  }

  /** The paid figure as one pass over the list, without the intermediate filtered list. */
  function PaidFold(invoices: seq<Invoice>): int {
    if |invoices| == 0 then 0
    else (if IsPaid(invoices[0]) then invoices[0].amountCents else 0) + PaidFold(invoices[1..])
  }

  /** The outstanding figure as one pass over the list. */
  function UnpaidFold(invoices: seq<Invoice>): int {
    if |invoices| == 0 then 0
    else (if IsPaid(invoices[0]) then 0 else invoices[0].amountCents) + UnpaidFold(invoices[1..])
  }

  /** Filtering and then summing agrees with the one-pass sums. */
  lemma {:induction false} AmountsAreFolds(invoices: seq<Invoice>)
    ensures PaidAmount(invoices) == PaidFold(invoices)
    ensures UnpaidAmount(invoices) == UnpaidFold(invoices)
  {
    if |invoices| > 0 {
      AmountsAreFolds(invoices[1..]);
    }
  }

  /** The paid and outstanding sums of a list of five invoices with the statuses of the mock list. */
  lemma FiveInvoiceAmounts(m: seq<Invoice>)
    requires |m| == 5
    requires IsPaid(m[0]) && !IsPaid(m[1]) && IsPaid(m[2]) && !IsPaid(m[3]) && !IsPaid(m[4])
    ensures PaidAmount(m) == m[0].amountCents + m[2].amountCents
    ensures UnpaidAmount(m) == m[1].amountCents + m[3].amountCents + m[4].amountCents
  {
    AmountsAreFolds(m);
    assert PaidFold(m[5..]) == 0 && UnpaidFold(m[5..]) == 0;
    assert m[4..][1..] == m[5..];
    assert PaidFold(m[4..]) == 0 && UnpaidFold(m[4..]) == m[4].amountCents;
    assert m[3..][1..] == m[4..];
    assert PaidFold(m[3..]) == 0 && UnpaidFold(m[3..]) == m[3].amountCents + m[4].amountCents;
    assert m[2..][1..] == m[3..];
    assert PaidFold(m[2..]) == m[2].amountCents;
    assert UnpaidFold(m[2..]) == m[3].amountCents + m[4].amountCents;
    assert m[1..][1..] == m[2..];
    assert PaidFold(m[1..]) == m[2].amountCents;
    assert UnpaidFold(m[1..]) == m[1].amountCents + m[3].amountCents + m[4].amountCents;
  }

  /** The statuses of the mock list: "Paid", "Unpaid", "Paid", "Overdue", "Pending". */
  lemma MockStatuses()
    ensures IsPaid(MockInvoices[0]) && IsPaid(MockInvoices[2])
    ensures !IsPaid(MockInvoices[1]) && !IsPaid(MockInvoices[3]) && !IsPaid(MockInvoices[4])
  {
    assert MockInvoices[1].status[0] != Paid[0];
    assert MockInvoices[3].status[0] != Paid[0];
    assert MockInvoices[4].status[1] != Paid[1];
  }

  /** The mock list: 62.98 paid and 274.97 outstanding, out of 337.95. */
  lemma MockSummary()
    ensures SummaryOf(MockInvoices) == Summary(5, 33795, 6298, 27497)
  {
    MockStatuses();
    FiveInvoiceAmounts(MockInvoices);
    PaidPlusUnpaidIsTotal(MockInvoices);
  }

  // ---------------------------------------------------------------------------
  // one row

  /** The line under the due date: the signed day count and its word. */
  datatype DaysLine = DaysLine(days: int, word: string)

  /** What a row shows beyond its fields. */
  datatype RowExtras = RowExtras(daysLine: Option<DaysLine>, payButton: bool)

  /**
   * The days line and the pay button of one row, given the day count the
   * page computes from the clock. A negative count is shown as is, followed
   * by "overdue".
   */
  function RowExtrasOf(inv: Invoice, daysRemaining: int): (r: RowExtras)
    ensures r.daysLine.Some? <==> inv.status != Paid
    ensures r.payButton <==> inv.status != Paid
    ensures r.daysLine.Some? ==> r.daysLine.value.days == daysRemaining
    ensures r.daysLine.Some? ==> (r.daysLine.value.word == "overdue" <==> daysRemaining < 0)
    ensures r.daysLine.Some? ==> (r.daysLine.value.word == "remaining" <==> daysRemaining >= 0)
  {
    if inv.status == Paid then RowExtras(None, false)
    else RowExtras(Some(DaysLine(daysRemaining, if daysRemaining < 0 then "overdue" else "remaining")), true)
  }
}
