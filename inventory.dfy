/**
 * The stock routes: restock or subtract (clamped at zero), issue with an oversell guard,
 * and the low-stock and expired listings.
 */
module Inventory {
  import opened Common
  import opened Seqs
  import opened MedicineModel

  datatype StockError = MedicineNotFound | InsufficientStock

  /**
   * The stock after `PUT /:id/stock`: "add" adds the quantity, "subtract" removes it but never
   * goes below zero, and any other operation leaves the stock as it was.
   */
  function StockAfterUpdate(stock: int, quantity: int, operation: string): (r: int)
    ensures operation == "add" ==> r == stock + quantity
    ensures operation == "subtract" ==> r >= 0 && r >= stock - quantity && (r == 0 || r == stock - quantity)
    ensures operation != "add" && operation != "subtract" ==> r == stock
  {
    if operation == "add" then stock + quantity
    else if operation == "subtract" then (if stock - quantity > 0 then stock - quantity else 0)
    else stock
  }

  /** Restocking a quantity and subtracting it again gives back a non-negative stock. */
  lemma AddThenSubtractRestores(stock: int, quantity: int)
    requires stock >= 0
    ensures StockAfterUpdate(StockAfterUpdate(stock, quantity, "add"), quantity, "subtract") == stock
  {
  }

  /** A subtraction keeps a stock that was never negative non-negative, and so does a restock of a non-negative quantity. */
  lemma UpdateKeepsStockNonNegative(stock: int, quantity: int, operation: string)
    requires stock >= 0
    requires operation == "add" ==> quantity >= 0
    ensures StockAfterUpdate(stock, quantity, operation) >= 0
  {
  }

  /**
   * `PUT /:id/issue` on a found medicine: rejected with stock untouched when the stock is
   * below the quantity; otherwise the stock drops by exactly the quantity and the record is saved.
   */
  function IssueStock(m: Medicine, quantity: int, now: int): (r: Result<Medicine, StockError>)
    ensures r.Ok? <==> m.stockQuantity >= quantity
    ensures r.Err? ==> r.error == InsufficientStock
    ensures r.Ok? ==> r.value.stockQuantity == m.stockQuantity - quantity && r.value.stockQuantity >= 0
    ensures r.Ok? ==> r.value == Save(m.(stockQuantity := m.stockQuantity - quantity), now)
  {
    if m.stockQuantity < quantity then Err(InsufficientStock)
    else Ok(Save(m.(stockQuantity := m.stockQuantity - quantity), now))
  }

  /**
   * Issuing a quantity and restocking it restores the stock count, so issues and restocks
   * of the same amounts cancel out.
   */
  lemma IssueThenRestockRestores(m: Medicine, quantity: int, now: int)
    requires m.stockQuantity >= quantity
    ensures StockAfterUpdate(IssueStock(m, quantity, now).value.stockQuantity, quantity, "add") == m.stockQuantity
  {
  }

  /**
   * The worked example: stock 10 with reorder level 5; issuing 6 leaves 4 (Low Stock), issuing 4
   * more leaves 0 (Out of Stock), and a further issue of 1 is refused.
   */
  lemma IssueScenario(m: Medicine, now: int)
    requires m.stockQuantity == 10 && m.reorderLevel == 5 && m.expiryDate >= now
    ensures var a := IssueStock(m, 6, now);
      && a.Ok? && a.value.stockQuantity == 4 && a.value.status == LowStock
      && var b := IssueStock(a.value, 4, now);
      && b.Ok? && b.value.stockQuantity == 0 && b.value.status == OutOfStock
      && IssueStock(b.value, 1, now) == Err(InsufficientStock)
  {
  }

  predicate IsLowOrOut(m: Medicine)
  {
    m.status == LowStock || m.status == OutOfStock
  }

  function StockKey(m: Medicine): int
  {
    m.stockQuantity
  }

  function ExpiryKey(m: Medicine): int
  {
    m.expiryDate
  }

  /** `GET /status/low-stock`: medicines whose stored status is Low Stock or Out of Stock, by ascending stock. */
  function LowStockReport(medicines: seq<Medicine>): seq<Medicine>
  {
    SortBy(Filter(medicines, IsLowOrOut), StockKey)
  }

  /** The low-stock report holds each such medicine as often as the collection does, and no other, sorted by stock. */
  lemma LowStockReportSpec(medicines: seq<Medicine>)
    ensures var r := LowStockReport(medicines);
      && SortedBy(r, StockKey)
      && multiset(r) == multiset(Filter(medicines, IsLowOrOut))
      && (forall i :: 0 <= i < |r| ==> r[i] in medicines && IsLowOrOut(r[i]))
  {
    var f := Filter(medicines, IsLowOrOut);
    var r := LowStockReport(medicines);
    SortByPermutes(f, StockKey);
    forall i | 0 <= i < |r| ensures r[i] in medicines && IsLowOrOut(r[i]) {
      assert r[i] in multiset(f);
    }
  }

  predicate ExpiredAt(now: int, m: Medicine)
  {
    m.expiryDate < now
  }

  /** `GET /status/expired`: medicines whose expiry date is before now, by ascending expiry date. */
  function ExpiredReport(medicines: seq<Medicine>, now: int): seq<Medicine>
  {
    SortBy(Filter(medicines, m => ExpiredAt(now, m)), ExpiryKey)
  }

  /**
   * The expired report is decided by the expiry date alone, not by the stored status, which may
   * be stale: a medicine saved before it expired is listed though its status still reads otherwise.
   */
  lemma ExpiredReportSpec(medicines: seq<Medicine>, now: int)
    ensures var r := ExpiredReport(medicines, now);
      && SortedBy(r, ExpiryKey)
      && multiset(r) == multiset(Filter(medicines, m => ExpiredAt(now, m)))
      && (forall i :: 0 <= i < |r| ==> r[i] in medicines && r[i].expiryDate < now)
      && (forall i :: 0 <= i < |medicines| && medicines[i].expiryDate < now ==> medicines[i] in r)
  {
    var f := Filter(medicines, m => ExpiredAt(now, m));
    var r := ExpiredReport(medicines, now);
    SortByPermutes(f, ExpiryKey);
    forall i | 0 <= i < |r| ensures r[i] in medicines && r[i].expiryDate < now {
      assert r[i] in multiset(f);
    }
    forall i | 0 <= i < |medicines| && medicines[i].expiryDate < now ensures medicines[i] in r {
      assert ExpiredAt(now, medicines[i]);
      assert medicines[i] in multiset(r);
    }
  }

  /** The medicine collection, keyed by document id. */
  class MedicineStore {
    var medicines: map<Key, Medicine>

    constructor (initial: map<Key, Medicine>)
      ensures medicines == initial
    {
      medicines := initial;
    }

    /** `PUT /:id/stock`: adjust the stock of one medicine and save it; an unknown id changes nothing. */
    method UpdateStock(id: Key, quantity: int, operation: string, now: int) returns (r: Result<Medicine, StockError>)
      modifies this
      ensures id !in old(medicines) ==> r == Err(MedicineNotFound) && medicines == old(medicines)
      ensures id in old(medicines) ==>
        var m := old(medicines)[id];
        && r == Ok(Save(m.(stockQuantity := StockAfterUpdate(m.stockQuantity, quantity, operation)), now))
        && medicines == old(medicines)[id := r.value]
    {
      if id !in medicines {
        return Err(MedicineNotFound);
      }
      var m := medicines[id];
      if operation == "add" {
        m := m.(stockQuantity := m.stockQuantity + quantity);
      } else if operation == "subtract" {
        var left := m.stockQuantity - quantity;
        m := m.(stockQuantity := if left > 0 then left else 0);
      }
      m := Save(m, now);
      medicines := medicines[id := m];
      r := Ok(m);
    }

    /** `PUT /:id/issue`: issue a quantity unless the stock is short; only the issued medicine changes. */
    method Issue(id: Key, quantity: int, now: int) returns (r: Result<Medicine, StockError>)
      modifies this
      ensures id !in old(medicines) ==> r == Err(MedicineNotFound) && medicines == old(medicines)
      ensures id in old(medicines) ==> r == IssueStock(old(medicines)[id], quantity, now)
      ensures r.Ok? ==> medicines == old(medicines)[id := r.value]
      ensures r.Err? ==> medicines == old(medicines)
    {
      if id !in medicines {
        return Err(MedicineNotFound);
      }
      var m := medicines[id];
      if m.stockQuantity < quantity {
        return Err(InsufficientStock);
      }
      m := Save(m.(stockQuantity := m.stockQuantity - quantity), now);
      medicines := medicines[id := m];
      r := Ok(m);
    }
  }
}
