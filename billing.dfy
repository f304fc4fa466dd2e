/**
 * The billing routes: bill generation (subtotal from five charge categories, then total from
 * tax and discount), payments, the unpaid listing and the revenue statistics.
 */
module BillingRoutes {
  import opened Common
  import opened Seqs
  import opened BillingModel

  /** The body of `POST /`; fields the client leaves out are `None` or empty. */
  datatype BillRequest = BillRequest(
    billId: Key,
    patientId: Key,
    charges: Charges,
    items: seq<LineItem>,
    tax: Option<int>,
    discount: Option<int>,
    amountPaid: Option<int>,
    paid: Option<bool>,
    paymentMethod: Option<string>,
    invoiceNumber: Option<string>)

  datatype BillingError = BillNotFound | ValidationFailed | DuplicateKey

  /** `test.cost || 0` */
  function LabCost(t: LabTestCharge): int
  {
    OrZero(t.cost)
  }

  /** `(med.quantity || 0) * (med.unitPrice || 0)` */
  function MedLineTotal(m: MedicineCharge): int
  {
    OrZero(m.quantity) * OrZero(m.unitPrice)
  }

  /** The line total as stored on the medicine charge. */
  function StoredTotal(m: MedicineCharge): int
  {
    OrZero(m.total)
  }

  /** `(roomCharges.days || 0) * (roomCharges.ratePerDay || 0)`, zero when there are no room charges. */
  function RoomTotal(room: Option<RoomCharges>): int
  {
    match room
    case None => 0
    case Some(rc) => OrZero(rc.days) * OrZero(rc.ratePerDay)
  }

  /** `charge.amount || 0` */
  function OtherAmount(c: OtherCharge): int
  {
    OrZero(c.amount)
  }

  /** The subtotal: the fee, each lab test's cost, each medicine's quantity times price, the room total and each other charge. */
  function Subtotal(c: Charges): int
  {
    OrZero(c.consultationFee) + Sum(c.labTests, LabCost) + Sum(c.medicines, MedLineTotal)
      + RoomTotal(c.roomCharges) + Sum(c.otherCharges, OtherAmount)
  }

  function PriceMedicine(m: MedicineCharge): MedicineCharge
  {
    m.(total := Some(MedLineTotal(m)))
  }

  function PriceMedicines(s: seq<MedicineCharge>): (r: seq<MedicineCharge>)
    ensures |r| == |s|
    ensures forall i :: 0 <= i < |s| ==> r[i] == PriceMedicine(s[i])
  {
    seq(|s|, i requires 0 <= i < |s| => PriceMedicine(s[i]))
  }

  function PriceRoom(room: Option<RoomCharges>): Option<RoomCharges>
  {
    match room
    case None => None
    case Some(rc) => Some(rc.(total := Some(RoomTotal(room))))
  }

  /** The charges as stored: every medicine line total and the room total overwritten with the computed values. */
  function PricedCharges(c: Charges): Charges
  {
    c.(medicines := PriceMedicines(c.medicines), roomCharges := PriceRoom(c.roomCharges))
  }

  /** The forEach loops of generation: the charges with their totals written in, and the subtotal. */
  method PriceCharges(c: Charges) returns (priced: Charges, subtotal: int)
    ensures priced == PricedCharges(c)
    ensures subtotal == Subtotal(c)
  {
    subtotal := 0;
    if c.consultationFee.Some? && c.consultationFee.value != 0 {
      subtotal := subtotal + c.consultationFee.value;
    }
    var i := 0;
    while i < |c.labTests|
      invariant 0 <= i <= |c.labTests|
      invariant subtotal == OrZero(c.consultationFee) + Sum(c.labTests[..i], LabCost)
    {
      subtotal := subtotal + OrZero(c.labTests[i].cost);
      assert c.labTests[..i + 1][..i] == c.labTests[..i];
      i := i + 1;
    }
    assert c.labTests[..i] == c.labTests;
    var meds, medicinesTotal := PriceMedicineLines(c.medicines);
    subtotal := subtotal + medicinesTotal;
    var room := c.roomCharges;
    if room.Some? {
      var t := OrZero(room.value.days) * OrZero(room.value.ratePerDay);
      room := Some(room.value.(total := Some(t)));
      subtotal := subtotal + t;
    }
    var base := subtotal;
    i := 0;
    while i < |c.otherCharges|
      invariant 0 <= i <= |c.otherCharges|
      invariant subtotal == base + Sum(c.otherCharges[..i], OtherAmount)
    {
      subtotal := subtotal + OrZero(c.otherCharges[i].amount);
      assert c.otherCharges[..i + 1][..i] == c.otherCharges[..i];
      i := i + 1;
    }
    assert c.otherCharges[..i] == c.otherCharges;
    priced := c.(medicines := meds, roomCharges := room);
  }

  /** The medicines forEach: each line's total written in, and the sum of the line totals. */
  method PriceMedicineLines(medicines: seq<MedicineCharge>) returns (meds: seq<MedicineCharge>, total: int)
    ensures meds == PriceMedicines(medicines)
    ensures total == Sum(medicines, MedLineTotal)
  {
    meds := medicines;
    total := 0;
    var i := 0;
    while i < |meds|
      invariant 0 <= i <= |meds| == |medicines|
      invariant forall j :: 0 <= j < i ==> meds[j] == PriceMedicine(medicines[j])
      invariant forall j :: i <= j < |meds| ==> meds[j] == medicines[j]
      invariant total == Sum(medicines[..i], MedLineTotal)
    {
      var line := OrZero(meds[i].quantity) * OrZero(meds[i].unitPrice);
      meds := meds[i := meds[i].(total := Some(line))];
      total := total + line;
      assert medicines[..i + 1][..i] == medicines[..i];
      i := i + 1;
    }
    assert medicines[..i] == medicines;
  }

  lemma {:induction false} SumPricedMedicines(s: seq<MedicineCharge>)
    ensures Sum(PriceMedicines(s), MedLineTotal) == Sum(s, MedLineTotal)
    ensures Sum(PriceMedicines(s), StoredTotal) == Sum(s, MedLineTotal)
  {
    if s != [] {
      var front := s[..|s| - 1];
      SumPricedMedicines(front);
      assert PriceMedicines(s)[..|s| - 1] == PriceMedicines(front);
    }
  }

  /**
   * Totals sent by the client are never trusted: the stored medicine line totals add up to the
   * medicine part of the subtotal, pricing again changes nothing, and the subtotal of the stored
   * charges is the subtotal of the submitted ones.
   */
  lemma PricingSpec(c: Charges)
    ensures Sum(PricedCharges(c).medicines, StoredTotal) == Sum(c.medicines, MedLineTotal)
    ensures PricedCharges(c).roomCharges.Some? ==> PricedCharges(c).roomCharges.value.total == Some(RoomTotal(c.roomCharges))
    ensures Subtotal(PricedCharges(c)) == Subtotal(c)
    ensures PricedCharges(PricedCharges(c)) == PricedCharges(c)
  {
    SumPricedMedicines(c.medicines);
  }

  /** Adding a lab test adds exactly its cost (zero when it has none) to the subtotal. */
  lemma SubtotalAddLabTest(c: Charges, t: LabTestCharge)
    ensures Subtotal(c.(labTests := c.labTests + [t])) == Subtotal(c) + OrZero(t.cost)
  {
    assert (c.labTests + [t])[..|c.labTests|] == c.labTests;
  }

  /** With no negative fee, cost, quantity, price, day count, rate or amount, the subtotal is not negative. */
  lemma SubtotalNonNegative(c: Charges)
    requires OrZero(c.consultationFee) >= 0
    requires forall i :: 0 <= i < |c.labTests| ==> LabCost(c.labTests[i]) >= 0
    requires forall i :: 0 <= i < |c.medicines| ==> OrZero(c.medicines[i].quantity) >= 0 && OrZero(c.medicines[i].unitPrice) >= 0
    requires c.roomCharges.Some? ==> OrZero(c.roomCharges.value.days) >= 0 && OrZero(c.roomCharges.value.ratePerDay) >= 0
    requires forall i :: 0 <= i < |c.otherCharges| ==> OtherAmount(c.otherCharges[i]) >= 0
    ensures Subtotal(c) >= 0
  {
    SumNonNegative(c.labTests, LabCost);
    assert forall i :: 0 <= i < |c.medicines| ==> MedLineTotal(c.medicines[i]) >= 0;
    SumNonNegative(c.medicines, MedLineTotal);
    SumNonNegative(c.otherCharges, OtherAmount);
  }

  /** `subtotal + (tax || 0) - (discount || 0)` */
  function TotalAmount(subtotal: int, tax: Option<int>, discount: Option<int>): int
  {
    subtotal + OrZero(tax) - OrZero(discount)
  }

  /** The document `Billing.create` is given, with schema defaults filled in. */
  function Draft(req: BillRequest, pm: Option<PaymentMethod>, now: int): Bill
  {
    var subtotal := Subtotal(req.charges);
    var total := TotalAmount(subtotal, req.tax, req.discount);
    Bill(req.billId, req.patientId, PricedCharges(req.charges), req.items,
         subtotal, OrZero(req.tax), OrZero(req.discount), total,
         Unpaid, OrZero(req.amountPaid), total, req.paid.GetOr(false),
         pm, None, req.invoiceNumber, now)
  }

  /**
   * Generation up to the database: an unknown payment method or a schema violation is a
   * validation error; otherwise the bill as the save hook leaves it, with the computed subtotal
   * and total. With no payment in the request it is Unpaid and owes its whole total.
   */
  function NewBill(req: BillRequest, now: int): (r: Result<Bill, BillingError>)
    ensures r.Err? ==> r.error == ValidationFailed
    ensures r.Ok? ==>
      var b := r.value;
      && SchemaValid(b) && HookConsistent(b)
      && b.billId == req.billId && b.invoiceNumber == req.invoiceNumber && b.createdAt == now
      && b.subtotal == Subtotal(req.charges)
      && b.totalAmount == b.subtotal + b.tax - b.discount
      && b.tax == OrZero(req.tax) && b.discount == OrZero(req.discount)
      && b.charges == PricedCharges(req.charges)
      && b.amountDue == b.totalAmount - b.amountPaid
    ensures r.Ok? ==>
      var b := r.value;
      && b.patientId == req.patientId && b.items == req.items
      && b.amountPaid == OrZero(req.amountPaid)
      && b.paymentMethod == (if req.paymentMethod.Some? then ParsePaymentMethod(req.paymentMethod.value) else None)
      && (b.paid <==> req.paid.GetOr(false) || (b.amountPaid != 0 && b.amountPaid >= b.totalAmount))
    ensures r.Ok? && req.amountPaid.None? ==>
      r.value.paymentStatus == Unpaid && r.value.amountDue == r.value.totalAmount && r.value.paid == req.paid.GetOr(false)
    ensures r.Ok? <==>
      && (req.paymentMethod.Some? ==> ParsePaymentMethod(req.paymentMethod.value).Some?)
      && req.billId != "" && req.patientId != ""
      && Subtotal(req.charges) >= 0 && OrZero(req.tax) >= 0 && OrZero(req.discount) >= 0
      && TotalAmount(Subtotal(req.charges), req.tax, req.discount) >= 0
      && forall i :: 0 <= i < |req.items| ==> ValidLineItem(req.items[i])
  {
    var pm := if req.paymentMethod.Some? then ParsePaymentMethod(req.paymentMethod.value) else None;
    if req.paymentMethod.Some? && pm.None? then Err(ValidationFailed)
    else
      var b := ApplySaveHook(Draft(req, pm, now));
      SaveHookSpec(Draft(req, pm, now));
      if SchemaValid(b) then Ok(b) else Err(ValidationFailed)
  }

  /** Line items are validated but play no part in the amounts. */
  lemma ItemsDoNotAffectAmounts(req: BillRequest, items: seq<LineItem>, now: int)
    requires NewBill(req, now).Ok? && NewBill(req.(items := items), now).Ok?
    ensures var a := NewBill(req, now).value;
      var b := NewBill(req.(items := items), now).value;
      a.subtotal == b.subtotal && a.totalAmount == b.totalAmount && a.amountDue == b.amountDue
  {
  }

  /** `invoiceNumber` is unique where present: some stored bill already carries it. */
  predicate InvoiceTaken(bills: map<Key, Bill>, invoice: Option<string>)
  {
    invoice.Some? && exists k :: k in bills && bills[k].invoiceNumber == invoice
  }

  /**
   * `PUT /:id/payment` on a found bill: the amount is added to what was paid, the method is
   * replaced (and must be one of the enum's), the payment date is stamped once the cumulative
   * amount covers the total, and the bill is saved.
   */
  function ApplyPayment(b: Bill, amount: int, pm: Option<PaymentMethod>, now: int): (r: Bill)
    ensures r.amountPaid == b.amountPaid + amount
    ensures r.paymentMethod == pm
    ensures r.paymentDate == if b.amountPaid + amount >= b.totalAmount then Some(now) else b.paymentDate
    ensures HookConsistent(r)
    ensures r.amountDue == b.totalAmount - (b.amountPaid + amount)
    ensures b.paid ==> r.paid
    ensures r.(amountPaid := b.amountPaid, paymentMethod := b.paymentMethod, paymentDate := b.paymentDate,
               amountDue := b.amountDue, paymentStatus := b.paymentStatus, paid := b.paid) == b
  {
    var paidNow := b.amountPaid + amount;
    var p := b.(amountPaid := paidNow, paymentMethod := pm,
                paymentDate := if paidNow >= b.totalAmount then Some(now) else b.paymentDate);
    SaveHookSpec(p);
    ApplySaveHook(p)
  }

  /** The payment request with its method string checked against the enum. */
  function PaymentOutcome(b: Bill, amount: int, methodName: Option<string>, now: int): (r: Result<Bill, BillingError>)
    ensures r.Err? <==> methodName.Some? && ParsePaymentMethod(methodName.value).None?
    ensures r.Err? ==> r.error == ValidationFailed
  {
    if methodName.None? then Ok(ApplyPayment(b, amount, None, now))
    else match ParsePaymentMethod(methodName.value)
      case None => Err(ValidationFailed)
      case Some(m) => Ok(ApplyPayment(b, amount, Some(m), now))
  }

  /** Two payments add up: what is paid and what is due reflect both amounts. */
  lemma PaymentsAccumulate(b: Bill, a1: int, a2: int, m1: Option<PaymentMethod>, m2: Option<PaymentMethod>, t1: int, t2: int)
    ensures var r := ApplyPayment(ApplyPayment(b, a1, m1, t1), a2, m2, t2);
      r.amountPaid == b.amountPaid + a1 + a2 && r.amountDue == b.totalAmount - (b.amountPaid + a1 + a2)
      && r.totalAmount == b.totalAmount
  {
  }

  /** A bill that is Paid stays Paid under further non-negative payments, provided its total is not negative. */
  lemma PaidStaysPaid(b: Bill, amount: int, pm: Option<PaymentMethod>, now: int)
    requires HookConsistent(b) && b.paymentStatus == Paid && b.totalAmount >= 0 && amount >= 0
    ensures ApplyPayment(b, amount, pm, now).paymentStatus == Paid
    ensures ApplyPayment(b, amount, pm, now).paid
  {
  }

  /**
   * Payments are not clamped: paying more than is due leaves a negative amount due, and the
   * bill reads Paid.
   */
  lemma OverpaymentNotClamped(b: Bill, amount: int, pm: Option<PaymentMethod>, now: int)
    requires HookConsistent(b) && b.totalAmount >= 0 && amount > b.amountDue
    ensures var r := ApplyPayment(b, amount, pm, now);
      r.amountDue < 0 && r.paymentStatus == Paid && r.paid
  {
  }

  /**
   * `paid` is sticky while the status is not: on a bill of 100, paying 100 makes it Paid, and a
   * later payment of -30 makes it Partial while `paid` stays true.
   */
  lemma RefundKeepsPaidFlag(b: Bill, now: int)
    requires b.totalAmount == 100 && b.amountPaid == 0 && !b.paid
    ensures var full := ApplyPayment(b, 100, Some(Cash), now);
      && full.paymentStatus == Paid && full.paid && full.paymentDate == Some(now)
      && var back := ApplyPayment(full, -30, Some(Cash), now + 1);
      && back.paymentStatus == Partial && back.paid && back.amountDue == 30 && back.paymentDate == Some(now)
  {
  }

  /** The status filter of `GET /status/unpaid`. */
  predicate Outstanding(b: Bill)
  {
    b.paymentStatus == Unpaid || b.paymentStatus == Partial
  }

  /** Sorting on this key puts the latest bill first (`sort({ createdAt: -1 })`). */
  function NewestBillFirst(b: Bill): int
  {
    -b.createdAt
  }

  /** `GET /status/unpaid`: the outstanding bills, newest first. */
  function UnpaidBills(bills: seq<Bill>): seq<Bill>
  {
    SortBy(Filter(bills, Outstanding), NewestBillFirst)
  }

  /**
   * The unpaid listing holds exactly the bills with nothing paid or less paid than the total,
   * each as often as stored, newest first; it can list a bill whose sticky `paid` flag is set.
   */
  lemma UnpaidBillsSpec(bills: seq<Bill>)
    requires forall i :: 0 <= i < |bills| ==> HookConsistent(bills[i])
    ensures var r := UnpaidBills(bills);
      && multiset(r) == multiset(Filter(bills, Outstanding))
      && (forall i, j :: 0 <= i < j < |r| ==> r[i].createdAt >= r[j].createdAt)
      && (forall i :: 0 <= i < |r| ==> r[i] in bills && (r[i].amountPaid == 0 || r[i].amountPaid < r[i].totalAmount))
      && (forall i :: 0 <= i < |bills| && (bills[i].amountPaid == 0 || bills[i].amountPaid < bills[i].totalAmount) ==> bills[i] in r)
  {
    var f := Filter(bills, Outstanding);
    var r := UnpaidBills(bills);
    SortByPermutes(f, NewestBillFirst);
    forall i | 0 <= i < |r|
      ensures r[i] in bills && (r[i].amountPaid == 0 || r[i].amountPaid < r[i].totalAmount)
    {
      assert r[i] in multiset(f);
      var j :| 0 <= j < |bills| && bills[j] == r[i];
      assert HookConsistent(bills[j]);
    }
    forall i | 0 <= i < |bills| && (bills[i].amountPaid == 0 || bills[i].amountPaid < bills[i].totalAmount)
      ensures bills[i] in r
    {
      assert HookConsistent(bills[i]);
      assert bills[i] in multiset(f);
    }
    forall i, j | 0 <= i < j < |r| ensures r[i].createdAt >= r[j].createdAt {
      assert NewestBillFirst(r[i]) <= NewestBillFirst(r[j]);
    }
  }

  /** The aggregation result: sums of total, paid and due, the number of bills and of paid bills. */
  datatype RevenueStats = RevenueStats(totalRevenue: int, totalPaid: int, totalDue: int, billCount: nat, paidBillCount: nat)

  /** `createdAt` within `[startDate, endDate]`; the range applies only when both ends are given. */
  predicate InRange(startDate: Option<int>, endDate: Option<int>, b: Bill)
  {
    startDate.None? || endDate.None? || (startDate.value <= b.createdAt && b.createdAt <= endDate.value)
  }

  function TotalOf(b: Bill): int
  {
    b.totalAmount
  }

  function PaidOf(b: Bill): int
  {
    b.amountPaid
  }

  function DueOf(b: Bill): int
  {
    b.amountDue
  }

  predicate IsPaid(b: Bill)
  {
    b.paid
  }

  /** The `$match` stage of the revenue pipeline: the bills in range, in stored order. */
  function InRangeBills(bills: seq<Bill>, startDate: Option<int>, endDate: Option<int>): seq<Bill>
  {
    Filter(bills, b => InRange(startDate, endDate, b))
  }

  /** Matching a concatenation matches each part. */
  lemma InRangeBillsAppend(a: seq<Bill>, b: seq<Bill>, startDate: Option<int>, endDate: Option<int>)
    ensures InRangeBills(a + b, startDate, endDate) == InRangeBills(a, startDate, endDate) + InRangeBills(b, startDate, endDate)
  {
    FilterAppend(a, b, x => InRange(startDate, endDate, x));
  }

  /** The `$group` stage: the three `$sum`s, the count and the paid count; nothing for no bills. */
  function GroupStats(m: seq<Bill>): Option<RevenueStats>
  {
    if m == [] then None
    else Some(RevenueStats(Sum(m, TotalOf), Sum(m, PaidOf), Sum(m, DueOf), |m|, Count(m, IsPaid)))
  }

  /** `GET /stats/revenue`: one group over the matching bills, and no statistics when no bill matches. */
  function Revenue(bills: seq<Bill>, startDate: Option<int>, endDate: Option<int>): (r: Option<RevenueStats>)
    ensures var m := InRangeBills(bills, startDate, endDate);
      && (r.None? <==> m == [])
      && (r.Some? ==> r.value.billCount == |m| && r.value.paidBillCount <= r.value.billCount)
      && (r.Some? ==> r.value.paidBillCount == |Filter(m, IsPaid)|)
  {
    GroupStats(InRangeBills(bills, startDate, endDate))
  }

  /** Over bills the hook has processed, the total due is the revenue less what has been paid. */
  lemma RevenueDueIdentity(bills: seq<Bill>, startDate: Option<int>, endDate: Option<int>)
    requires forall i :: 0 <= i < |bills| ==> HookConsistent(bills[i])
    ensures var r := Revenue(bills, startDate, endDate);
      r.Some? ==> r.value.totalDue == r.value.totalRevenue - r.value.totalPaid
  {
    var m := InRangeBills(bills, startDate, endDate);
    forall i | 0 <= i < |m| ensures DueOf(m[i]) == TotalOf(m[i]) - PaidOf(m[i]) {
      var j :| 0 <= j < |bills| && bills[j] == m[i];
      assert HookConsistent(bills[j]);
    }
    SumDifference(m, TotalOf, PaidOf, DueOf);
  }

  /** Two statistics merged as one `$group` would: every field added, with no statistics as the unit. */
  function Merge(x: Option<RevenueStats>, y: Option<RevenueStats>): Option<RevenueStats>
  {
    if x.None? then y
    else if y.None? then x
    else Some(RevenueStats(
      x.value.totalRevenue + y.value.totalRevenue,
      x.value.totalPaid + y.value.totalPaid,
      x.value.totalDue + y.value.totalDue,
      x.value.billCount + y.value.billCount,
      x.value.paidBillCount + y.value.paidBillCount))
  }

  /**
   * The statistics of one bill: its total, paid and due amounts, a count of one and a paid count
   * of one exactly when it is flagged paid; none when it is out of range.
   */
  lemma RevenueOfOneBill(b: Bill, startDate: Option<int>, endDate: Option<int>)
    ensures Revenue([b], startDate, endDate) ==
      if InRange(startDate, endDate, b)
      then Some(RevenueStats(b.totalAmount, b.amountPaid, b.amountDue, 1, if b.paid then 1 else 0))
      else None
  {
    var m := InRangeBills([b], startDate, endDate);
    assert m == if InRange(startDate, endDate, b) then [b] else [];
    if m == [b] {
      assert [b][..0] == [];
      assert Sum(m, TotalOf) == b.totalAmount;
      assert Sum(m, PaidOf) == b.amountPaid;
      assert Sum(m, DueOf) == b.amountDue;
      assert Count(m, IsPaid) == if b.paid then 1 else 0;
    }
  }

  /**
   * `$sum` over the bills of `a + b` is the sum over each part: the statistics of a concatenation
   * merge those of its parts. With `RevenueOfOneBill` this fixes every field of `Revenue`.
   */
  lemma RevenueOfConcatenation(a: seq<Bill>, b: seq<Bill>, startDate: Option<int>, endDate: Option<int>)
    ensures Revenue(a + b, startDate, endDate) == Merge(Revenue(a, startDate, endDate), Revenue(b, startDate, endDate))
  {
    InRangeBillsAppend(a, b, startDate, endDate);
    GroupStatsAppend(InRangeBills(a, startDate, endDate), InRangeBills(b, startDate, endDate));
  }

  lemma GroupStatsAppend(ma: seq<Bill>, mb: seq<Bill>)
    ensures GroupStats(ma + mb) == Merge(GroupStats(ma), GroupStats(mb))
  {
    if ma == [] {
      assert ma + mb == mb;
    } else if mb == [] {
      assert ma + mb == ma;
    } else {
      var x, y, z := GroupStats(ma).value, GroupStats(mb).value, GroupStats(ma + mb).value;
      assert z.totalRevenue == x.totalRevenue + y.totalRevenue by { SumAppend(ma, mb, TotalOf); }
      assert z.totalPaid == x.totalPaid + y.totalPaid by { SumAppend(ma, mb, PaidOf); }
      assert z.totalDue == x.totalDue + y.totalDue by { SumAppend(ma, mb, DueOf); }
      assert z.paidBillCount == x.paidBillCount + y.paidBillCount by { CountAppend(ma, mb, IsPaid); }
      assert z.billCount == x.billCount + y.billCount;
      MergeBoth(x, y, z);
    }
  }

  lemma MergeBoth(x: RevenueStats, y: RevenueStats, z: RevenueStats)
    requires z.totalRevenue == x.totalRevenue + y.totalRevenue && z.totalPaid == x.totalPaid + y.totalPaid
    requires z.totalDue == x.totalDue + y.totalDue
    requires z.billCount == x.billCount + y.billCount && z.paidBillCount == x.paidBillCount + y.paidBillCount
    ensures Merge(Some(x), Some(y)) == Some(z)
  {
  }

  /** Without a complete date range every bill counts. */
  lemma RevenueWithoutRangeCountsAll(bills: seq<Bill>, endDate: Option<int>)
    requires bills != []
    ensures Revenue(bills, None, endDate).Some?
    ensures Revenue(bills, None, endDate).value.billCount == |bills|
  {
    assert InRange(None, endDate, bills[0]);
    assert bills[0] in InRangeBills(bills, None, endDate);
    FilterKeepsAll(bills, b => InRange(None, endDate, b));
  }

  /** The bill collection, keyed by `billId`. */
  /**
   * Every stored bill sits under its own id, passed the schema, was processed by the save
   * hook, and no two bills share an invoice number.
   */
  predicate LedgerInvariant(bills: map<Key, Bill>)
  {
    && (forall k :: k in bills ==> bills[k].billId == k && SchemaValid(bills[k]) && HookConsistent(bills[k]))
    && (forall k1, k2 :: k1 in bills && k2 in bills && k1 != k2 && bills[k1].invoiceNumber.Some? ==>
          bills[k1].invoiceNumber != bills[k2].invoiceNumber)
  }

  /** Replacing a stored bill by one with the same id and invoice number that passes the schema and the hook keeps the invariant. */
  lemma ReplaceKeepsLedgerInvariant(bills: map<Key, Bill>, b: Bill)
    requires LedgerInvariant(bills) && b.billId in bills
    requires b.invoiceNumber == bills[b.billId].invoiceNumber && SchemaValid(b) && HookConsistent(b)
    ensures LedgerInvariant(bills[b.billId := b])
  {
  }

  /** A payment keeps the bill's id, invoice number and everything the schema checks. */
  lemma PaymentKeepsSchema(b: Bill, amount: int, pm: Option<PaymentMethod>, now: int)
    requires SchemaValid(b)
    ensures var r := ApplyPayment(b, amount, pm, now);
      SchemaValid(r) && r.billId == b.billId && r.invoiceNumber == b.invoiceNumber
  {
    var r := ApplyPayment(b, amount, pm, now);
    assert r.items == b.items;
  }

  class BillingLedger {
    var bills: map<Key, Bill>

    /**
     * Every stored bill sits under its own id, passed the schema, was processed by the save
     * hook, and no two bills share an invoice number.
     */
    predicate Valid()
      reads this
    {
      LedgerInvariant(bills)
    }

    constructor ()
      ensures Valid() && bills == map[]
    {
      bills := map[];
    }

    /**
     * `POST /`: price the charges, compute subtotal and total, validate, and store; a taken
     * `billId` or invoice number is a duplicate-key error and nothing is stored.
     */
    method Generate(req: BillRequest, now: int) returns (r: Result<Bill, BillingError>)
      requires Valid()
      modifies this
      ensures Valid()
      ensures NewBill(req, now).Err? ==> r == NewBill(req, now) && bills == old(bills)
      ensures NewBill(req, now).Ok? && (req.billId in old(bills) || InvoiceTaken(old(bills), req.invoiceNumber)) ==>
        r == Err(DuplicateKey) && bills == old(bills)
      ensures r.Ok? ==> r == NewBill(req, now) && bills == old(bills)[req.billId := r.value]
      ensures NewBill(req, now).Ok? && req.billId !in old(bills) && !InvoiceTaken(old(bills), req.invoiceNumber) ==> r.Ok?
    {
      var priced, subtotal := PriceCharges(req.charges);
      var pm: Option<PaymentMethod> := None;
      if req.paymentMethod.Some? {
        pm := ParsePaymentMethod(req.paymentMethod.value);
        if pm.None? {
          return Err(ValidationFailed);
        }
      }
      var total := subtotal + OrZero(req.tax) - OrZero(req.discount);
      var b := Bill(req.billId, req.patientId, priced, req.items, subtotal, OrZero(req.tax), OrZero(req.discount),
                    total, Unpaid, OrZero(req.amountPaid), total, req.paid.GetOr(false), pm, None,
                    req.invoiceNumber, now);
      assert b == Draft(req, pm, now);
      b := ApplySaveHook(b);
      if !SchemaValid(b) {
        return Err(ValidationFailed);
      }
      if b.billId in bills || InvoiceTaken(bills, b.invoiceNumber) {
        return Err(DuplicateKey);
      }
      bills := bills[b.billId := b];
      r := Ok(b);
    }

    /** `PUT /:id/payment`: an unknown bill or method changes nothing; otherwise only that bill changes. */
    method RecordPayment(id: Key, amount: int, methodName: Option<string>, now: int) returns (r: Result<Bill, BillingError>)
      requires Valid()
      modifies this
      ensures Valid()
      ensures id !in old(bills) ==> r == Err(BillNotFound) && bills == old(bills)
      ensures id in old(bills) ==> r == PaymentOutcome(old(bills)[id], amount, methodName, now)
      ensures r.Ok? ==> bills == old(bills)[id := r.value]
      ensures r.Err? ==> bills == old(bills)
    {
      if id !in bills {
        return Err(BillNotFound);
      }
      var b := bills[id];
      var pm: Option<PaymentMethod> := None;
      if methodName.Some? {
        pm := ParsePaymentMethod(methodName.value);
        if pm.None? {
          return Err(ValidationFailed);
        }
      }
      var paidNow := b.amountPaid + amount;
      b := b.(amountPaid := paidNow, paymentMethod := pm);
      if paidNow >= b.totalAmount {
        b := b.(paymentDate := Some(now));
      }
      b := ApplySaveHook(b);
      assert b == ApplyPayment(bills[id], amount, pm, now);
      assert PaymentOutcome(bills[id], amount, methodName, now) == Ok(b);
      PaymentKeepsSchema(bills[id], amount, pm, now);
      ReplaceKeepsLedgerInvariant(bills, b);
      bills := bills[id := b];
      r := Ok(b);
    }
  }
}
