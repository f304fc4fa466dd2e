/**
 * The bill record: its charge categories, line items and payment fields, the schema's
 * constraints, and the save hook that re-derives the amount due, the payment status and the
 * sticky `paid` flag before every save.
 */
module BillingModel {
  import opened Common

  type Key = string

  datatype PaymentStatus = Unpaid | Partial | Paid

  /** The values the `paymentMethod` field accepts besides being left unset. */
  datatype PaymentMethod = Cash | CreditCard | DebitCard | Insurance | Online | Upi

  datatype LabTestCharge = LabTestCharge(testName: string, cost: Option<int>)
  datatype MedicineCharge = MedicineCharge(medicineName: string, quantity: Option<int>, unitPrice: Option<int>, total: Option<int>)
  datatype RoomCharges = RoomCharges(days: Option<int>, ratePerDay: Option<int>, total: Option<int>)
  datatype OtherCharge = OtherCharge(description: string, amount: Option<int>)

  /** The five charge categories; a category left out is an absent fee or an empty list. */
  datatype Charges = Charges(
    consultationFee: Option<int>,
    labTests: seq<LabTestCharge>,
    medicines: seq<MedicineCharge>,
    roomCharges: Option<RoomCharges>,
    otherCharges: seq<OtherCharge>)

  /** A line item as submitted; an empty description stands for a missing one. */
  datatype LineItem = LineItem(description: string, quantity: Option<int>, unitPrice: Option<int>, total: Option<int>)

  /** A stored bill; money in minor units, dates in milliseconds since the epoch. */
  datatype Bill = Bill(
    billId: Key,
    patientId: Key,
    charges: Charges,
    items: seq<LineItem>,
    subtotal: int,
    tax: int,
    discount: int,
    totalAmount: int,
    paymentStatus: PaymentStatus,
    amountPaid: int,
    amountDue: int,
    paid: bool,
    paymentMethod: Option<PaymentMethod>,
    paymentDate: Option<int>,
    invoiceNumber: Option<string>,
    createdAt: int)

  const DefaultItemQuantity: int := 1

  /** The spelling of each payment method in the `paymentMethod` enum. */
  function MethodName(m: PaymentMethod): string
  {
    match m
    case Cash => "Cash"
    case CreditCard => "Credit Card"
    case DebitCard => "Debit Card"
    case Insurance => "Insurance"
    case Online => "Online"
    case Upi => "UPI"
  }

  /** The enum check on `paymentMethod`: a string outside the six names is rejected. */
  function ParsePaymentMethod(s: string): Option<PaymentMethod>
  {
    if s == "Cash" then Some(Cash)
    else if s == "Credit Card" then Some(CreditCard)
    else if s == "Debit Card" then Some(DebitCard)
    else if s == "Insurance" then Some(Insurance)
    else if s == "Online" then Some(Online)
    else if s == "UPI" then Some(Upi)
    else None
  }

  /** Every enum name is accepted and read back as itself, and only enum names are accepted. */
  lemma PaymentMethodRoundTrip(m: PaymentMethod, s: string)
    ensures ParsePaymentMethod(MethodName(m)) == Some(m)
    ensures ParsePaymentMethod(s).Some? ==> MethodName(ParsePaymentMethod(s).value) == s
  {
  }

  /** The status branch of the save hook: nothing paid, then paid in full, then partly paid. */
  function DerivedStatus(amountPaid: int, totalAmount: int): PaymentStatus
  {
    if amountPaid == 0 then Unpaid
    else if amountPaid >= totalAmount then Paid
    else Partial
  }

  /**
   * Each status holds exactly under its own condition; a zero payment reads Unpaid even on a
   * bill whose total is zero.
   */
  lemma PaymentStatusClassification(amountPaid: int, totalAmount: int)
    ensures var st := DerivedStatus(amountPaid, totalAmount);
      && (st == Unpaid <==> amountPaid == 0)
      && (st == Paid <==> amountPaid != 0 && amountPaid >= totalAmount)
      && (st == Partial <==> amountPaid != 0 && amountPaid < totalAmount)
  {
  }

  /**
   * `pre('save')`: the amount due becomes total minus paid, the status is re-derived, and
   * `paid` is set when the status is Paid and otherwise left as it was; nothing else changes.
   */
  function ApplySaveHook(b: Bill): (r: Bill)
    ensures r.amountDue == b.totalAmount - b.amountPaid
    ensures r.paymentStatus == DerivedStatus(b.amountPaid, b.totalAmount)
    ensures r.paid <==> b.paid || (b.amountPaid != 0 && b.amountPaid >= b.totalAmount)
    ensures r.(amountDue := b.amountDue, paymentStatus := b.paymentStatus, paid := b.paid) == b
  {
    var st := DerivedStatus(b.amountPaid, b.totalAmount);
    b.(amountDue := b.totalAmount - b.amountPaid,
       paymentStatus := st,
       paid := if st == Paid then true else b.paid)
  }

  /** What holds of every bill the hook has just processed. */
  predicate HookConsistent(b: Bill)
  {
    && b.amountDue == b.totalAmount - b.amountPaid
    && b.paymentStatus == DerivedStatus(b.amountPaid, b.totalAmount)
    && (b.paymentStatus == Paid ==> b.paid)
  }

  /**
   * The hook establishes its invariant, changes nothing on a bill that already satisfies it (so
   * saving twice is saving once), and never clears `paid`.
   */
  lemma SaveHookSpec(b: Bill)
    ensures HookConsistent(ApplySaveHook(b))
    ensures HookConsistent(b) ==> ApplySaveHook(b) == b
    ensures ApplySaveHook(ApplySaveHook(b)) == ApplySaveHook(b)
    ensures b.paid ==> ApplySaveHook(b).paid
  {
  }

  /** The constraints on a line item: description required, quantity at least 1 (default 1), price and total present and non-negative. */
  predicate ValidLineItem(item: LineItem)
  {
    && item.description != ""
    && item.quantity.GetOr(DefaultItemQuantity) >= 1
    && item.unitPrice.Some? && item.unitPrice.value >= 0
    && item.total.Some? && item.total.value >= 0
  }

  /**
   * The schema's validators: billId and patientId required, no negative subtotal, tax, discount
   * or total, and every line item valid.
   */
  predicate SchemaValid(b: Bill)
  {
    && b.billId != ""
    && b.patientId != ""
    && b.subtotal >= 0 && b.tax >= 0 && b.discount >= 0 && b.totalAmount >= 0
    && forall i :: 0 <= i < |b.items| ==> ValidLineItem(b.items[i])
  }
}
