/**
 * The chart data on the dashboard: one bar per store with its product count
 * and unit total, and a status pie with the empty slices dropped.
 */
module InventoryCharts {
  import opened Strings
  import opened Seqs
  import opened UseInventory

  /** One bar: `{ store, products, quantity }`. The unit total is NaN (None) when a value is not a record. */
  datatype Bar = Bar(store: string, products: nat, quantity: Option<int>)

  function BarFor(store: string, items: seq<Item>): Bar
  {
    Bar(store, |items|, QuantitySum(items))
  }

  /** `storeNames.map(store => ...)` over the given keys. */
  function BarsFor(keys: seq<string>, lists: map<string, seq<Item>>): (r: seq<Bar>)
    requires forall k :: k in keys ==> k in lists
    ensures |r| == |keys|
    ensures forall i :: 0 <= i < |keys| ==>
              && r[i].store == keys[i]
              && r[i].products == |lists[keys[i]]|
              && r[i].quantity == QuantitySum(lists[keys[i]])
  {
    if keys == [] then [] else [BarFor(keys[0], lists[keys[0]])] + BarsFor(keys[1..], lists)
  }

  /** `barChartData`: one bar per store key, in key order. */
  function BarChartData(inv: Inventory): (r: seq<Bar>)
    requires inv.Valid()
    ensures |r| == |inv.keys|
    ensures forall i :: 0 <= i < |inv.keys| ==> r[i].store == inv.keys[i] && r[i].products == |inv.lists[inv.keys[i]]|
  {
    BarsFor(inv.keys, inv.lists)
  }

  /** The sum of the bars' product counts. */
  function SumProducts(bars: seq<Bar>): nat
  {
    if bars == [] then 0 else bars[0].products + SumProducts(bars[1..])
  }

  /** The sum of the bars' unit totals, NaN (None) absorbing. */
  function SumQuantities(bars: seq<Bar>): Option<int>
  {
    if bars == [] then Some(0) else Plus(bars[0].quantity, SumQuantities(bars[1..]))
  }

  /** The bars' product counts add up to the number of items in all stores. */
  lemma {:induction false} BarsCountAllItems(keys: seq<string>, lists: map<string, seq<Item>>)
    requires forall k :: k in keys ==> k in lists
    ensures SumProducts(BarsFor(keys, lists)) == |Flatten(keys, lists)|
  {
    if keys != [] {
      BarsCountAllItems(keys[1..], lists);
    }
  }

  /** The bars' unit totals add up to the unit total of all stores. */
  lemma {:induction false} BarsSumAllQuantities(keys: seq<string>, lists: map<string, seq<Item>>)
    requires forall k :: k in keys ==> k in lists
    ensures SumQuantities(BarsFor(keys, lists)) == QuantitySum(Flatten(keys, lists))
  {
    if keys != [] {
      BarsSumAllQuantities(keys[1..], lists);
      QuantitySumConcat(lists[keys[0]], Flatten(keys[1..], lists));
    }
  }

  /** One pie slice: `{ name, value, fill }`. */
  datatype Slice = Slice(name: string, value: nat, fill: string)

  /** The three slices before the zero ones are dropped. */
  function AllSlices(items: seq<Item>, now: Instant): (r: seq<Slice>)
    ensures |r| == 3
    ensures r[0].value + r[1].value + r[2].value == |items|
  {
    StatusPartition(items, now);
    [ Slice("Expired", CountStatus(items, Expired, now), "#f87171"),
      Slice("Low Stock", CountStatus(items, Low, now), "#fbbf24"),
      Slice("Normal", CountStatus(items, Normal, now), "#4ade80") ]
  }

  function NonZero(): Slice -> bool
  {
    (s: Slice) => s.value > 0
  }

  function SumValues(slices: seq<Slice>): nat
  {
    if slices == [] then 0 else slices[0].value + SumValues(slices[1..])
  }

  /** Dropping zero slices does not change the total. */
  lemma {:induction false} NonZeroKeepsTotal(slices: seq<Slice>)
    ensures SumValues(Filter(slices, NonZero())) == SumValues(slices)
  {
    if slices != [] {
      NonZeroKeepsTotal(slices[1..]);
    }
  }

  /** Three slices add up to their three values. */
  lemma SumOfThree(a: Slice, b: Slice, c: Slice)
    ensures SumValues([a, b, c]) == a.value + b.value + c.value
  {
    assert [a, b, c][1..] == [b, c] && [b, c][1..] == [c] && [c][1..] == [];
    assert SumValues([c]) == c.value + SumValues([]);
    assert SumValues([b, c]) == b.value + SumValues([c]);
  }

  /** The status pie over a list of items: the three slices without the empty ones. */
  function PieSlices(items: seq<Item>, now: Instant): seq<Slice>
  {
    Filter(AllSlices(items, now), NonZero())
  }

  /** `pieChartData`: the status pie over all items of the inventory. */
  function PieChartData(inv: Inventory, now: Instant): seq<Slice>
    requires inv.Valid()
  {
    PieSlices(AllItems(inv), now)
  }

  /**
   * At most three slices, each positive, none of the non-empty statuses
   * missing, and their values add up to the number of items.
   */
  lemma PieSlicesShape(items: seq<Item>, now: Instant)
    ensures var r := PieSlices(items, now);
      && |r| <= 3
      && (forall s :: s in r ==> s.value > 0)
      && (forall s :: s in AllSlices(items, now) && s.value > 0 ==> s in r)
      && SumValues(r) == |items|
  {
    var all := AllSlices(items, now);
    forall s | s in all && s.value > 0
      ensures s in PieSlices(items, now)
    {
      FilterComplete(all, NonZero(), s);
    }
    NonZeroKeepsTotal(all);
    assert all == [all[0], all[1], all[2]];
    SumOfThree(all[0], all[1], all[2]);
  }

  /**
   * The surviving slices keep their fixed order (Expired, Low Stock, Normal):
   * each of the three is kept in place or dropped.
   */
  lemma PieSlicesOrder(items: seq<Item>, now: Instant)
    ensures var all := AllSlices(items, now);
      PieSlices(items, now) == Filter([all[0]], NonZero()) + Filter([all[1]], NonZero()) + Filter([all[2]], NonZero())
  {
    var all := AllSlices(items, now);
    assert all == [all[0]] + [all[1]] + [all[2]];
    FilterConcat([all[0]] + [all[1]], [all[2]], NonZero());
    FilterConcat([all[0]], [all[1]], NonZero());
  }
}
