/**
 * The pharmacy page: which prescription lines an issue request carries, when the issue
 * button is offered, and the stock label shown beside each medicine.
 */
module PharmacyPage {
  import opened Common
  import opened Seqs
  import opened MedicineModel
  import opened Pharmacy

  /** `'All medicines already issued'`, or the generic `'Failed to issue medicines'` of the catch block. */
  datatype PageError = AllIssued | IssueFailed

  predicate NotIssued(item: PrescriptionItem)
  {
    !item.issued
  }

  predicate HasMedicine(item: PrescriptionItem)
  {
    item.medicineId.Some?
  }

  function AsRequest(item: PrescriptionItem): IssueRequest
    requires HasMedicine(item)
  {
    IssueRequest(item.medicineId.value, item.quantity)
  }

  /**
   * `itemsToIssue`: the lines not yet issued, as (medicine, quantity) pairs in their order. A
   * pending line without a medicine makes the mapping throw, which the page reports as a failed
   * issue; with nothing pending no request is sent.
   */
  function ItemsToIssue(prescription: seq<PrescriptionItem>): (r: Result<seq<IssueRequest>, PageError>)
    ensures r.Ok? ==> |r.value| == |Filter(prescription, NotIssued)| > 0
    ensures r.Ok? ==> forall i :: 0 <= i < |r.value| ==>
      var line := Filter(prescription, NotIssued)[i];
      line.medicineId == Some(r.value[i].medicineId) && line.quantity == r.value[i].quantity
  {
    var pending := Filter(prescription, NotIssued);
    if exists i :: 0 <= i < |pending| && !HasMedicine(pending[i]) then Err(IssueFailed)
    else if pending == [] then Err(AllIssued)
    else Ok(seq(|pending|, i requires 0 <= i < |pending| => AsRequest(pending[i])))
  }

  /** The issue button: shown when some line is not issued. */
  predicate ShowIssueButton(prescription: seq<PrescriptionItem>)
  {
    exists i :: 0 <= i < |prescription| && !prescription[i].issued
  }

  /**
   * The button is shown exactly when pressing it gets past the "all issued" guard, and a request
   * is sent exactly when the button is shown and every pending line names a medicine.
   */
  lemma IssueButtonMatchesHandler(prescription: seq<PrescriptionItem>)
    ensures ShowIssueButton(prescription) <==> ItemsToIssue(prescription) != Err(AllIssued)
    ensures ItemsToIssue(prescription).Ok? <==>
      ShowIssueButton(prescription)
      && forall i :: 0 <= i < |prescription| && !prescription[i].issued ==> HasMedicine(prescription[i])
  {
    var pending := Filter(prescription, NotIssued);
    if ShowIssueButton(prescription) {
      var i :| 0 <= i < |prescription| && !prescription[i].issued;
      assert prescription[i] in pending;
    }
    if forall i :: 0 <= i < |prescription| && !prescription[i].issued ==> HasMedicine(prescription[i]) {
      forall j | 0 <= j < |pending| ensures HasMedicine(pending[j]) {
        assert pending[j] in prescription;
      }
    } else {
      var i :| 0 <= i < |prescription| && !prescription[i].issued && !HasMedicine(prescription[i]);
      assert prescription[i] in pending;
    }
  }

  /** The request the page sends is what the dispensary then issues: one request per pending line. */
  lemma ItemsToIssueFeedsDispensary(prescription: seq<PrescriptionItem>, b: Batch, issuer: string, now: int)
    requires ItemsToIssue(prescription).Ok?
    ensures var r := IssueAll(b, ItemsToIssue(prescription).value, issuer, now);
      |r.issued| + |r.errors| == |b.issued| + |b.errors| + |Filter(prescription, NotIssued)|
  {
    IssueAllAccounts(b, ItemsToIssue(prescription).value, issuer, now);
  }

  const OutOfStockLabel: string := "Out of Stock"
  const LowStockLabel: string := "Low Stock"
  const InStockLabel: string := "In Stock"

  /** `getStockStatus`: empty stock, then at or under the reorder level, else in stock; expiry is not consulted. */
  function StockLabel(m: Medicine): string
  {
    if m.stockQuantity == 0 then OutOfStockLabel
    else if m.stockQuantity <= m.reorderLevel then LowStockLabel
    else InStockLabel
  }

  /**
   * For a medicine not yet expired the page's label agrees with the status the save hook derives;
   * an expired medicine is still labelled by its stock alone.
   */
  lemma StockLabelAgreesWithStatus(m: Medicine, now: int)
    ensures m.expiryDate >= now ==>
      var st := DeriveStatus(m.expiryDate, now, m.stockQuantity, m.reorderLevel);
      && (StockLabel(m) == OutOfStockLabel <==> st == OutOfStock)
      && (StockLabel(m) == LowStockLabel <==> st == LowStock)
      && (StockLabel(m) == InStockLabel <==> st == Available)
    ensures StockLabel(m) != OutOfStockLabel && StockLabel(m) != LowStockLabel ==> StockLabel(m) == InStockLabel
    ensures StockLabel(m) == StockLabel(m.(expiryDate := now - 1))
  {
  }
}
