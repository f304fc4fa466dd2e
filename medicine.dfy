/**
 * The medicine record and its save hook: before every save the stored status is
 * re-derived from the expiry date, the stock and the reorder level.
 */
module MedicineModel {
  import opened Common

  type Key = string

  datatype Category = Antibiotic | Painkiller | Vitamin | Antiviral | Antiseptic | Cardiac | Diabetic | OtherCategory
  datatype DosageForm = Tablet | Capsule | Syrup | Injection | Cream | Drops | Inhaler

  /** The four values the `status` field may hold. */
  datatype MedicineStatus = Available | LowStock | OutOfStock | Expired

  /** A stored medicine; `expiryDate` is in milliseconds since the epoch, money in minor units. */
  datatype Medicine = Medicine(
    medicineId: string,
    name: string,
    category: Category,
    dosageForm: DosageForm,
    unitPrice: int,
    stockQuantity: int,
    reorderLevel: int,
    expiryDate: int,
    status: MedicineStatus)

  /** The fields of a new medicine as submitted; stock and reorder level may be left out. */
  datatype MedicineDraft = MedicineDraft(
    medicineId: string,
    name: string,
    category: Category,
    dosageForm: DosageForm,
    unitPrice: int,
    stockQuantity: Option<int>,
    reorderLevel: Option<int>,
    expiryDate: int)

  const DefaultStock: int := 0
  const DefaultReorderLevel: int := 50

  /** The save hook's if/else chain: expiry first, then an empty stock, then the reorder level. */
  function DeriveStatus(expiryDate: int, now: int, stock: int, reorderLevel: int): MedicineStatus
  {
    if expiryDate < now then Expired
    else if stock == 0 then OutOfStock
    else if stock <= reorderLevel then LowStock
    else Available
  }

  /**
   * Each status holds exactly under its own condition: expiry overrides everything, an empty
   * stock reads Out of Stock even though it is also at or under the reorder level.
   */
  lemma StatusClassification(expiryDate: int, now: int, stock: int, reorderLevel: int)
    ensures var st := DeriveStatus(expiryDate, now, stock, reorderLevel);
      && (st == Expired <==> expiryDate < now)
      && (st == OutOfStock <==> expiryDate >= now && stock == 0)
      && (st == LowStock <==> expiryDate >= now && stock != 0 && stock <= reorderLevel)
      && (st == Available <==> expiryDate >= now && stock != 0 && stock > reorderLevel)
  {
  }

  /** `medicine.save()`: the record with its status re-derived at time `now`; nothing else changes. */
  function Save(m: Medicine, now: int): (r: Medicine)
    ensures r.(status := m.status) == m
    ensures r.status == Expired <==> m.expiryDate < now
    ensures r.status == OutOfStock <==> m.expiryDate >= now && m.stockQuantity == 0
    ensures r.status == LowStock <==> m.expiryDate >= now && m.stockQuantity != 0 && m.stockQuantity <= m.reorderLevel
    ensures r.status == Available <==> m.expiryDate >= now && m.stockQuantity != 0 && m.stockQuantity > m.reorderLevel
  {
    m.(status := DeriveStatus(m.expiryDate, now, m.stockQuantity, m.reorderLevel))
  }

  /** Saving twice at the same instant is the same as saving once. */
  lemma SaveIdempotent(m: Medicine, now: int)
    ensures Save(Save(m, now), now) == Save(m, now)
  {
  }

  /** `Medicine.create(body)`: defaults stock 0 and reorder level 50, then the save hook runs. */
  function NewMedicine(d: MedicineDraft, now: int): (m: Medicine)
    ensures d.stockQuantity.None? ==> m.stockQuantity == DefaultStock
    ensures d.reorderLevel.None? ==> m.reorderLevel == DefaultReorderLevel
    ensures d.stockQuantity.Some? ==> m.stockQuantity == d.stockQuantity.value
    ensures d.reorderLevel.Some? ==> m.reorderLevel == d.reorderLevel.value
    ensures m == Save(m, now)
  {
    Save(Medicine(d.medicineId, d.name, d.category, d.dosageForm, d.unitPrice,
                  d.stockQuantity.GetOr(DefaultStock), d.reorderLevel.GetOr(DefaultReorderLevel),
                  d.expiryDate, Available), now)
  }

  /** A new medicine submitted without a stock count, and not yet expired, is Out of Stock. */
  lemma NewMedicineWithoutStockIsOutOfStock(d: MedicineDraft, now: int)
    requires d.stockQuantity.None? && d.expiryDate >= now
    ensures NewMedicine(d, now).status == OutOfStock
  {
  }
}
