/**
 * The four stat cards of the inventory page, computed from one store's
 * list, and the two highlight classes.
 */
module DashboardStats {
  import opened Strings
  import opened Seqs
  import opened UseInventory

  /**
   * `totalItems` (NaN, None, when a value is not a record), `expiredCount`,
   * `lowStockCount` and `productCount`.
   */
  datatype Stats = Stats(totalItems: Option<int>, expiredCount: nat, lowStockCount: nat, productCount: nat)

  /**
   * The figures for one list: the unit total, the expired and low counts and
   * the length. The expired and low items are disjoint, so together they are
   * never more than the products; an empty list shows zero everywhere.
   */
  function ComputeStats(items: seq<Item>, now: Instant): (r: Stats)
    ensures r.productCount == |items|
    ensures r.totalItems.Some? <==> forall x :: x in items ==> x.Record?
    ensures r.expiredCount + r.lowStockCount <= r.productCount
    ensures items == [] ==> r == Stats(Some(0), 0, 0, 0)
  {
    StatusPartition(items, now);
    Stats(QuantitySum(items), CountStatus(items, Expired, now), CountStatus(items, Low, now), |items|)
  }

  /** The extra class of the low-stock card: "warning" exactly when some item is low. */
  function WarningClass(s: Stats): (c: string)
    ensures c == "warning" <==> s.lowStockCount > 0
    ensures c != "warning" ==> c == ""
  {
    if s.lowStockCount > 0 then "warning" else ""
  }

  /** The extra class of the expired card: "danger" exactly when some item is expired. */
  function DangerClass(s: Stats): (c: string)
    ensures c == "danger" <==> s.expiredCount > 0
    ensures c != "danger" ==> c == ""
  {
    if s.expiredCount > 0 then "danger" else ""
  }

  /** A list of fresh, well-stocked records raises neither highlight. */
  lemma {:induction false} AllNormalNoHighlight(items: seq<Item>, now: Instant)
    requires forall x :: x in items ==> GetStatus(x, now) == Normal
    ensures WarningClass(ComputeStats(items, now)) == "" && DangerClass(ComputeStats(items, now)) == ""
  {
    FilterDropsAll(items, HasStatus(Expired, now));
    FilterDropsAll(items, HasStatus(Low, now));
  }
}
