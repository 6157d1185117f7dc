/** The student's payments page (samyoga/app/dashboard/payments/page.tsx): lists, totals and counts. */
module PaymentsPage {
  import opened Schema
  import opened Seqs

  function HasStatus(status: PaymentStatus): Payment -> bool {
    (p: Payment) => p.status == status
  }

  function Amount(): Payment -> int {
    (p: Payment) => p.amount
  }

  /** The figures the page shows. */
  datatype PaymentSummary = PaymentSummary(
    pending: seq<Payment>,
    paid: seq<Payment>,
    totalPending: int,
    totalPaid: int,
    total: int,
    pendingCount: nat,
    paidCount: nat,
    showsNoPayments: bool)

  /** The amount of `p` when it has `status`, and 0 otherwise. */
  function AmountIf(status: PaymentStatus): Payment -> int {
    (p: Payment) => if p.status == status then p.amount else 0
  }

  /** The sum over a filtered list is the sum over the whole list with the others counted as 0. */
  lemma {:induction false} SumOfFiltered(payments: seq<Payment>, status: PaymentStatus)
    ensures SumBy(Filter(payments, HasStatus(status)), Amount()) == SumBy(payments, AmountIf(status))
  {
    if payments != [] {
      SumOfFiltered(payments[1..], status);
      var head := if payments[0].status == status then [payments[0]] else [];
      SumByAppend(head, Filter(payments[1..], HasStatus(status)), Amount());
    }
  }

  lemma {:induction false} SumByAppend(a: seq<Payment>, b: seq<Payment>, f: Payment -> int)
    ensures SumBy(a + b, f) == SumBy(a, f) + SumBy(b, f)
  {
    if a == [] {
      assert a + b == b;
    } else {
      assert (a + b)[1..] == a[1..] + b;
      SumByAppend(a[1..], b, f);
    }
  }

  /** The figures shown for the pending and paid lists; `empty` is whether there are no payments at all. */
  function Figures(pending: seq<Payment>, paid: seq<Payment>, empty: bool): (r: PaymentSummary)
    ensures r.pending == pending && r.paid == paid
    ensures r.totalPending == SumBy(pending, Amount()) && r.totalPaid == SumBy(paid, Amount())
    ensures r.total == r.totalPending + r.totalPaid
    ensures r.pendingCount == |pending| && r.paidCount == |paid|
    ensures r.showsNoPayments == empty
  {
    var totalPending := SumBy(pending, Amount());
    var totalPaid := SumBy(paid, Amount());
    PaymentSummary(pending, paid, totalPending, totalPaid, totalPending + totalPaid, |pending|, |paid|, empty)
  }

  /** The page's figures over the payments the API returns. */
  function Summary(payments: seq<Payment>): (r: PaymentSummary)
    ensures r.pending == Filter(payments, HasStatus(PaymentStatus.PENDING)) && r.paid == Filter(payments, HasStatus(PAID))
    ensures r.totalPending == SumBy(r.pending, Amount()) && r.totalPaid == SumBy(r.paid, Amount())
    ensures r.total == r.totalPending + r.totalPaid
    ensures r.pendingCount == |r.pending| && r.paidCount == |r.paid|
    ensures r.showsNoPayments <==> payments == []
  {
    Figures(Filter(payments, HasStatus(PaymentStatus.PENDING)), Filter(payments, HasStatus(PAID)), |payments| == 0)
  }

  /** Each total is the sum over all payments of the amounts with that status. */
  lemma TotalsAreSums(payments: seq<Payment>)
    ensures Summary(payments).totalPending == SumBy(payments, AmountIf(PaymentStatus.PENDING))
    ensures Summary(payments).totalPaid == SumBy(payments, AmountIf(PAID))
  {
    SumOfFiltered(payments, PaymentStatus.PENDING);
    SumOfFiltered(payments, PAID);
  }

  /** Appending a payment of another status leaves the list of one status as it was. */
  lemma OtherStatusKeepsList(payments: seq<Payment>, p: Payment, status: PaymentStatus)
    requires p.status != status
    ensures Filter(payments + [p], HasStatus(status)) == Filter(payments, HasStatus(status))
  {
    FilterSnoc(payments, p, HasStatus(status));
    assert !HasStatus(status)(p);
  }

  /** A FAILED or REFUNDED payment changes no list, total or count, only the empty-list notice. */
  lemma OtherStatusesNeverCount(payments: seq<Payment>, p: Payment)
    requires p.status == FAILED || p.status == REFUNDED
    ensures Summary(payments + [p]) == Summary(payments).(showsNoPayments := false)
  {
    OtherStatusKeepsList(payments, p, PaymentStatus.PENDING);
    OtherStatusKeepsList(payments, p, PAID);
    var kept := Figures(Filter(payments, HasStatus(PaymentStatus.PENDING)), Filter(payments, HasStatus(PAID)), false);
    assert Summary(payments + [p]) == kept;
  }
}
