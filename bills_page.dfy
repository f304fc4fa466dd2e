/**
 * The patient's bills page: the all / paid / unpaid filter and the paid and unpaid totals.
 */
module BillsPage {
  import opened Seqs
  import opened BillingModel
  import BillingRoutes

  /** The 'paid' tab: the flag or the status says paid. */
  predicate ShownAsPaid(b: Bill)
  {
    b.paid || b.paymentStatus == Paid
  }

  /** The 'unpaid' tab: neither the flag nor the status says paid. */
  predicate ShownAsUnpaid(b: Bill)
  {
    !b.paid && b.paymentStatus != Paid
  }

  /** `filteredBills`: 'paid' and 'unpaid' select, any other value of the filter shows every bill. */
  function FilteredBills(bills: seq<Bill>, filter: string): seq<Bill>
  {
    if filter == "paid" then Filter(bills, ShownAsPaid)
    else if filter == "unpaid" then Filter(bills, ShownAsUnpaid)
    else bills
  }

  /**
   * The 'all' tab shows the list unchanged; the 'paid' and 'unpaid' tabs are order-preserving
   * selections that split the list between them, each bill landing in exactly one.
   */
  lemma FilterTabsPartition(bills: seq<Bill>)
    ensures FilteredBills(bills, "all") == bills
    ensures IsSubsequence(FilteredBills(bills, "paid"), bills)
    ensures IsSubsequence(FilteredBills(bills, "unpaid"), bills)
    ensures multiset(FilteredBills(bills, "paid")) + multiset(FilteredBills(bills, "unpaid")) == multiset(bills)
    ensures forall i :: 0 <= i < |bills| ==>
      (bills[i] in FilteredBills(bills, "paid") <==> bills[i] !in FilteredBills(bills, "unpaid"))
  {
    var paid := Filter(bills, ShownAsPaid);
    var unpaid := Filter(bills, ShownAsUnpaid);
    assert FilteredBills(bills, "paid") == paid;
    assert FilteredBills(bills, "unpaid") == unpaid;
    FilterCongruent(bills, ShownAsUnpaid, Not(ShownAsPaid));
    FilterPartition(bills, ShownAsPaid);
    forall i | 0 <= i < |bills|
      ensures bills[i] in paid <==> bills[i] !in unpaid
    {
      FilterMembership(bills, ShownAsPaid, bills[i]);
      FilterMembership(bills, ShownAsUnpaid, bills[i]);
    }
  }

  predicate PaidFlag(b: Bill)
  {
    b.paid
  }

  predicate UnpaidFlag(b: Bill)
  {
    !b.paid
  }

  /** `totalPaid`: the totals of the bills whose `paid` flag is set. */
  function TotalPaid(bills: seq<Bill>): int
  {
    Sum(Filter(bills, PaidFlag), BillingRoutes.TotalOf)
  }

  /** `totalUnpaid`: the totals of the other bills. */
  function TotalUnpaid(bills: seq<Bill>): int
  {
    Sum(Filter(bills, UnpaidFlag), BillingRoutes.TotalOf)
  }

  /** Every bill's total is counted once, in one of the two sums. */
  lemma TotalsAddUp(bills: seq<Bill>)
    ensures TotalPaid(bills) + TotalUnpaid(bills) == Sum(bills, BillingRoutes.TotalOf)
  {
    FilterCongruent(bills, UnpaidFlag, Not(PaidFlag));
    SumSplitByFilter(bills, PaidFlag, BillingRoutes.TotalOf);
  }

  /**
   * The tabs read the status but the totals read only the flag: a bill whose status is Paid
   * while its flag is unset sits under the 'paid' tab and is counted as unpaid.
   */
  lemma StatusAndFlagDisagree(b: Bill)
    requires b.paymentStatus == Paid && !b.paid
    ensures FilteredBills([b], "paid") == [b]
    ensures TotalUnpaid([b]) == b.totalAmount && TotalPaid([b]) == 0
  {
    assert [b][1..] == [];
    assert Filter([b], UnpaidFlag) == [b];
    assert Filter([b], PaidFlag) == [];
    SumCons(b, [], BillingRoutes.TotalOf);
  }
}
