/**
 * Issuing a prescription item by item against the medicine stock, and the list of
 * prescriptions still waiting to be issued.
 */
module Pharmacy {
  import opened Common
  import opened Seqs
  import opened MedicineModel
  import Inventory

  /** A prescription line as issuance reads and writes it. */
  datatype PrescriptionItem = PrescriptionItem(
    medicineId: Option<Key>,
    medication: string,
    dosage: string,
    quantity: int,
    issued: bool,
    issuedDate: Option<int>,
    issuedBy: Option<string>)

  datatype MedicalRecord = MedicalRecord(patientId: Key, createdAt: int, prescription: seq<PrescriptionItem>)

  /** One element of the request's `prescriptionItems`. */
  datatype IssueRequest = IssueRequest(medicineId: Key, quantity: int)

  /** The two per-item errors: `Medicine <id> not found` and `Insufficient stock for <name>. Available: .., Required: ..`. */
  datatype IssueError = MedicineMissing(medicineId: Key) | ShortStock(medicine: string, available: int, required: int)

  /** An entry of the `issued` list of the response. */
  datatype IssuedMedicine = IssuedMedicine(medicine: string, quantity: int, remaining: int)

  /** The state the issuance loop carries from item to item. */
  datatype Batch = Batch(
    medicines: map<Key, Medicine>,
    prescription: seq<PrescriptionItem>,
    issued: seq<IssuedMedicine>,
    errors: seq<IssueError>)

  datatype IssueReport = IssueReport(issued: seq<IssuedMedicine>, errors: seq<IssueError>)

  datatype PharmacyError = RecordNotFound

  const DefaultIssuer: string := "Pharmacy Staff"

  /** `req.user.name || 'Pharmacy Staff'`: an empty or absent name falls back to the default. */
  function Issuer(userName: string): (s: string)
    ensures s != ""
    ensures userName != "" ==> s == userName
  {
    if userName == "" then DefaultIssuer else userName
  }

  /** `prescription.find(p => p.medicineId === id)`: the index of the first line for that medicine. */
  function FirstMatch(p: seq<PrescriptionItem>, id: Key): (k: Option<nat>)
    ensures k.Some? ==> k.value < |p| && p[k.value].medicineId == Some(id)
    ensures k.Some? ==> forall j :: 0 <= j < k.value ==> p[j].medicineId != Some(id)
    ensures k.None? ==> forall j :: 0 <= j < |p| ==> p[j].medicineId != Some(id)
  {
    if p == [] then None
    else if p[0].medicineId == Some(id) then Some(0)
    else match FirstMatch(p[1..], id)
      case None => None
      case Some(j) => Some(j + 1)
  }

  /** Marks the first line for the medicine as issued, by whom and when; other lines are untouched. */
  function MarkIssued(p: seq<PrescriptionItem>, id: Key, issuer: string, now: int): (r: seq<PrescriptionItem>)
    ensures |r| == |p|
    ensures forall j :: 0 <= j < |p| && p[j].issued ==> r[j].issued
    ensures forall j :: 0 <= j < |p| && p[j].medicineId != Some(id) ==> r[j] == p[j]
    ensures FirstMatch(p, id).None? ==> r == p
    ensures FirstMatch(p, id).Some? ==>
      var j := FirstMatch(p, id).value;
      && r[j] == p[j].(issued := true, issuedDate := Some(now), issuedBy := Some(issuer))
      && forall k :: 0 <= k < |p| && k != j ==> r[k] == p[k]
  {
    match FirstMatch(p, id)
    case None => p
    case Some(j) => p[j := p[j].(issued := true, issuedDate := Some(now), issuedBy := Some(issuer))]
  }

  /**
   * One turn of the loop: a missing medicine or a short stock appends one error and changes
   * nothing else; otherwise the stock drops by exactly the requested quantity, the medicine is
   * saved, its first prescription line is marked issued, and one entry reports the stock left.
   */
  function IssueOne(b: Batch, item: IssueRequest, issuer: string, now: int): (r: Batch)
    ensures r.medicines.Keys == b.medicines.Keys
    ensures |r.prescription| == |b.prescription|
    ensures |r.issued| + |r.errors| == |b.issued| + |b.errors| + 1
    ensures item.medicineId !in b.medicines ==>
      r == b.(errors := b.errors + [MedicineMissing(item.medicineId)])
    ensures item.medicineId in b.medicines && b.medicines[item.medicineId].stockQuantity < item.quantity ==>
      var m := b.medicines[item.medicineId];
      r == b.(errors := b.errors + [ShortStock(m.name, m.stockQuantity, item.quantity)])
    ensures item.medicineId in b.medicines && b.medicines[item.medicineId].stockQuantity >= item.quantity ==>
      var m := b.medicines[item.medicineId];
      var after := r.medicines[item.medicineId];
      && after.stockQuantity == m.stockQuantity - item.quantity >= 0
      && after == Save(m.(stockQuantity := after.stockQuantity), now)
      && r.medicines == b.medicines[item.medicineId := after]
      && r.prescription == MarkIssued(b.prescription, item.medicineId, issuer, now)
      && r.issued == b.issued + [IssuedMedicine(m.name, item.quantity, after.stockQuantity)]
      && r.errors == b.errors
  {
    if item.medicineId !in b.medicines then
      b.(errors := b.errors + [MedicineMissing(item.medicineId)])
    else
      var m := b.medicines[item.medicineId];
      if m.stockQuantity < item.quantity then
        b.(errors := b.errors + [ShortStock(m.name, m.stockQuantity, item.quantity)])
      else
        var after := Save(m.(stockQuantity := m.stockQuantity - item.quantity), now);
        Batch(b.medicines[item.medicineId := after],
              MarkIssued(b.prescription, item.medicineId, issuer, now),
              b.issued + [IssuedMedicine(after.name, item.quantity, after.stockQuantity)],
              b.errors)
  }

  /** The whole loop: the items handled in order, each one independently of the outcome of the others. */
  function IssueAll(b: Batch, items: seq<IssueRequest>, issuer: string, now: int): (r: Batch)
    ensures r.medicines.Keys == b.medicines.Keys
    ensures |r.prescription| == |b.prescription|
  {
    if items == [] then b
    else IssueOne(IssueAll(b, items[..|items| - 1], issuer, now), items[|items| - 1], issuer, now)
  }

  /** Every requested item ends up in exactly one of the two lists. */
  lemma {:induction false} IssueAllAccounts(b: Batch, items: seq<IssueRequest>, issuer: string, now: int)
    ensures var r := IssueAll(b, items, issuer, now);
      |r.issued| + |r.errors| == |b.issued| + |b.errors| + |items|
  {
    if items != [] {
      IssueAllAccounts(b, items[..|items| - 1], issuer, now);
    }
  }

  predicate Requested(items: seq<IssueRequest>, id: Key)
  {
    exists i :: 0 <= i < |items| && items[i].medicineId == id
  }

  /**
   * Medicines that no item asks for keep their record, no medicine is added or removed, no
   * prescription line is added or removed, and a line already issued stays issued.
   */
  lemma {:induction false} IssueAllFrame(b: Batch, items: seq<IssueRequest>, issuer: string, now: int)
    ensures var r := IssueAll(b, items, issuer, now);
      && r.medicines.Keys == b.medicines.Keys
      && (forall k :: k in b.medicines && !Requested(items, k) ==> r.medicines[k] == b.medicines[k])
      && |r.prescription| == |b.prescription|
      && (forall j :: 0 <= j < |b.prescription| && b.prescription[j].issued ==> r.prescription[j].issued)
  {
    if items != [] {
      var front := items[..|items| - 1];
      IssueAllFrame(b, front, issuer, now);
      forall k | k in b.medicines && !Requested(items, k)
        ensures IssueAll(b, items, issuer, now).medicines[k] == b.medicines[k]
      {
        forall i | 0 <= i < |front| ensures front[i].medicineId != k {
          assert front[i] == items[i];
        }
        assert items[|items| - 1].medicineId != k;
      }
    }
  }

  predicate StockNonNegative(medicines: map<Key, Medicine>)
  {
    forall k :: k in medicines ==> medicines[k].stockQuantity >= 0
  }

  /** No stock is ever driven below zero: a medicine whose stock was non-negative stays non-negative. */
  lemma {:induction false} IssueAllKeepsStockNonNegative(b: Batch, items: seq<IssueRequest>, issuer: string, now: int)
    requires StockNonNegative(b.medicines)
    ensures StockNonNegative(IssueAll(b, items, issuer, now).medicines)
  {
    if items != [] {
      var front := items[..|items| - 1];
      IssueAllKeepsStockNonNegative(b, front, issuer, now);
      var prev := IssueAll(b, front, issuer, now);
      var item := items[|items| - 1];
      var r := IssueOne(prev, item, issuer, now);
      forall k | k in r.medicines ensures r.medicines[k].stockQuantity >= 0 {
        assert k in prev.medicines;
        if k != item.medicineId || item.medicineId !in prev.medicines || prev.medicines[item.medicineId].stockQuantity < item.quantity {
          assert r.medicines[k] == prev.medicines[k];
        }
      }
    }
  }

  /**
   * Issuance does not skip what was issued before: the same request sent twice, with stock for
   * both, decrements the stock twice.
   */
  lemma RepeatedRequestIssuesTwice(b: Batch, item: IssueRequest, issuer: string, now: int)
    requires item.medicineId in b.medicines
    requires item.quantity >= 0 && b.medicines[item.medicineId].stockQuantity >= 2 * item.quantity
    ensures var r := IssueAll(b, [item, item], issuer, now);
      && r.medicines[item.medicineId].stockQuantity == b.medicines[item.medicineId].stockQuantity - 2 * item.quantity
      && |r.issued| == |b.issued| + 2 && r.errors == b.errors
  {
    assert [item, item][..1] == [item];
    assert [item][..0] == [];
    assert IssueAll(b, [], issuer, now) == b;
    assert IssueAll(b, [item], issuer, now) == IssueOne(b, item, issuer, now);
  }

  /** The collection of medical records, issued against the shared medicine store. */
  class Dispensary {
    const store: Inventory.MedicineStore
    var records: map<Key, MedicalRecord>

    constructor (store: Inventory.MedicineStore, records: map<Key, MedicalRecord>)
      ensures this.store == store && this.records == records
    {
      this.store := store;
      this.records := records;
    }

    /**
     * One requested item of `PUT /issue/:recordId`: an unknown medicine or short stock is reported;
     * otherwise the stock is lowered and saved, the first matching prescription line is ticked,
     * and the item is listed as issued.
     */
    method IssueItem(item: IssueRequest, prescription: seq<PrescriptionItem>, issued: seq<IssuedMedicine>,
                     errors: seq<IssueError>, issuer: string, now: int)
      returns (prescription': seq<PrescriptionItem>, issued': seq<IssuedMedicine>, errors': seq<IssueError>)
      modifies store
      ensures Batch(store.medicines, prescription', issued', errors')
        == IssueOne(Batch(old(store.medicines), prescription, issued, errors), item, issuer, now)
    {
      prescription', issued', errors' := prescription, issued, errors;
      if item.medicineId !in store.medicines {
        errors' := errors + [MedicineMissing(item.medicineId)];
        return;
      }
      var m := store.medicines[item.medicineId];
      if m.stockQuantity < item.quantity {
        errors' := errors + [ShortStock(m.name, m.stockQuantity, item.quantity)];
        return;
      }
      m := m.(stockQuantity := m.stockQuantity - item.quantity);
      m := Save(m, now);
      store.medicines := store.medicines[item.medicineId := m];
      match FirstMatch(prescription, item.medicineId) {
        case Some(j) =>
          prescription' := prescription[j := prescription[j].(issued := true, issuedDate := Some(now), issuedBy := Some(issuer))];
        case None =>
      }
      issued' := issued + [IssuedMedicine(m.name, item.quantity, m.stockQuantity)];
    }

    /**
     * `PUT /issue/:recordId`: an unknown record changes nothing; otherwise each item is issued or
     * reported in turn, stock saved item by item, and the record saved once at the end.
     */
    method IssuePrescription(recordId: Key, items: seq<IssueRequest>, userName: string, now: int)
      returns (r: Result<IssueReport, PharmacyError>)
      modifies this, store
      ensures recordId !in old(records) ==>
        r == Err(RecordNotFound) && records == old(records) && store.medicines == old(store.medicines)
      ensures recordId in old(records) ==>
        var rec := old(records)[recordId];
        var b := IssueAll(Batch(old(store.medicines), rec.prescription, [], []), items, Issuer(userName), now);
        && store.medicines == b.medicines
        && records == old(records)[recordId := rec.(prescription := b.prescription)]
        && r == Ok(IssueReport(b.issued, b.errors))
    {
      if recordId !in records {
        return Err(RecordNotFound);
      }
      var rec := records[recordId];
      var issuer := Issuer(userName);
      ghost var start := Batch(store.medicines, rec.prescription, [], []);
      var prescription := rec.prescription;
      var issued: seq<IssuedMedicine> := [];
      var errors: seq<IssueError> := [];
      var i := 0;
      while i < |items|
        invariant 0 <= i <= |items|
        invariant Batch(store.medicines, prescription, issued, errors) == IssueAll(start, items[..i], issuer, now)
        invariant records == old(records)
      {
        prescription, issued, errors := IssueItem(items[i], prescription, issued, errors, issuer, now);
        assert items[..i + 1][..i] == items[..i];
        i := i + 1;
      }
      assert items[..i] == items;
      records := records[recordId := rec.(prescription := prescription)];
      r := Ok(IssueReport(issued, errors));
    }
  }

  /** At least one prescription line (`'prescription.0': { $exists: true }`). */
  predicate HasPrescription(r: MedicalRecord)
  {
    |r.prescription| > 0
  }

  /** `record.prescription.some(item => !item.issued)` */
  predicate HasPendingItem(r: MedicalRecord)
  {
    exists j :: 0 <= j < |r.prescription| && !r.prescription[j].issued
  }

  const PendingLimit: nat := 50

  function Take<T>(s: seq<T>, n: nat): (r: seq<T>)
    ensures |r| == if |s| <= n then |s| else n
    ensures r == s[..|r|]
    ensures |s| <= n ==> r == s
  {
    if |s| <= n then s else s[..n]
  }

  /**
   * `GET /pending`: of the records (given newest first) that have any prescription line, the 50
   * newest are fetched and those with a line not yet issued are kept.
   */
  function PendingPrescriptions(newestFirst: seq<MedicalRecord>): seq<MedicalRecord>
  {
    Filter(Take(Filter(newestFirst, HasPrescription), PendingLimit), HasPendingItem)
  }

  /**
   * The pending list holds at most 50 records, each with a line still to issue; and every record
   * with such a line is listed when it is among the 50 newest records that have prescriptions.
   */
  lemma PendingSpec(newestFirst: seq<MedicalRecord>)
    ensures var r := PendingPrescriptions(newestFirst);
      && |r| <= PendingLimit
      && IsSubsequence(r, newestFirst)
      && (forall i :: 0 <= i < |r| ==> HasPendingItem(r[i]) && r[i] in newestFirst)
      && var fetched := Take(Filter(newestFirst, HasPrescription), PendingLimit);
         && IsSubsequence(r, fetched)
         && (forall i :: 0 <= i < |fetched| && HasPendingItem(fetched[i]) ==> fetched[i] in r)
         && (forall x :: multiset(r)[x] == if HasPendingItem(x) then multiset(fetched)[x] else 0)
  {
    var withLines := Filter(newestFirst, HasPrescription);
    var fetched := Take(withLines, PendingLimit);
    var r := PendingPrescriptions(newestFirst);
    PrefixIsSubsequence(withLines, |fetched|);
    SubsequenceTransitive(r, fetched, withLines);
    SubsequenceTransitive(r, withLines, newestFirst);
    FilterCounts(fetched, HasPendingItem);
    forall i | 0 <= i < |r| ensures r[i] in newestFirst {
      assert r[i] in fetched;
      assert r[i] in withLines;
    }
  }
}
