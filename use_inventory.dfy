/**
 * The inventory hook: product records filed per store, the status classifier,
 * the load-or-seed start-up, the seed generator, the two mutations and the
 * save that follows every change.
 *
 * A date is a day number (days since the epoch, UTC); the current instant
 * `now` is a number of milliseconds on the same time line, and the seed's
 * `today` is the UTC day that instant falls in. Both are parameters.
 * Random draws are inputs bounded by the ranges the generator draws from.
 */
module UseInventory {
  import opened Strings
  import opened Seqs

  /** A product id (a JavaScript number). */
  type Id = int

  /** A calendar day: days since the epoch, counted in UTC. */
  type Day = int

  /** An instant: milliseconds since the epoch, as `new Date()` holds it. */
  type Instant = int

  const MsPerDay: int := 86400000

  /** `new Date("YYYY-MM-DD")`: a date-only string denotes midnight UTC of that day. */
  function Midnight(d: Day): Instant
  {
    d * MsPerDay
  }

  /** Below this many units a fresh product is "low". */
  const LowStockThreshold: int := 50

  /**
   * A product record. `store` is absent on seeded records: the generator does
   * not set it, while the add form does.
   */
  datatype Product = Product(
    id: Id,
    store: Option<string>,
    name: string,
    category: string,
    quantity: int,
    batch: string,
    expiryDate: Day,
    temperature: string)

  /**
   * A value filed in a store's list. Besides product records, the edit path of
   * the controller files a bare string (the store name it was handed) and its
   * add path files `arguments[1] || {}`, which is not a product record either.
   */
  datatype Item = Record(product: Product) | StringValue(s: string) | ArgumentValue

  datatype Status = Expired | Low | Normal

  /** The string `getStatus` returns for each status. */
  function StatusName(s: Status): string
  {
    match s
    case Expired => "expired"
    case Low => "low"
    case Normal => "normal"
  }

  /**
   * `getStatus` on a product record: the expiry, midnight UTC of its date, is
   * compared with the current instant first, then the quantity with the threshold.
   */
  function Classify(p: Product, now: Instant): (s: Status)
    ensures s == Expired <==> Midnight(p.expiryDate) < now
    ensures s == Low <==> now <= Midnight(p.expiryDate) && p.quantity < LowStockThreshold
    ensures s == Normal <==> now <= Midnight(p.expiryDate) && LowStockThreshold <= p.quantity
  {
    if Midnight(p.expiryDate) < now then Expired
    else if p.quantity < LowStockThreshold then Low
    else Normal
  }

  /**
   * At any instant of a UTC day after its first millisecond, a product counts
   * as expired exactly when its expiry date is that day or earlier: a product
   * is already expired on the day written on it.
   */
  lemma ExpiredOnItsOwnDay(p: Product, today: Day, now: Instant)
    requires Midnight(today) < now < Midnight(today + 1)
    ensures Classify(p, now) == Expired <==> p.expiryDate <= today
  {
    if p.expiryDate <= today {
      assert Midnight(p.expiryDate) <= Midnight(today);
    } else {
      assert Midnight(today + 1) <= Midnight(p.expiryDate);
    }
  }

  /**
   * `getStatus` on any filed value. A value without `expiryDate` yields an
   * invalid date, which never compares below today, and an undefined
   * quantity is never below the threshold: such a value is "normal".
   */
  function GetStatus(x: Item, now: Instant): (s: Status)
    ensures x.Record? ==> s == Classify(x.product, now)
    ensures !x.Record? ==> s == Normal
  {
    match x
    case Record(p) => Classify(p, now)
    case _ => Normal
  }

  /** The `id` of a filed value; a value that is not a record has none (undefined). */
  function ItemId(x: Item): Option<Id>
  {
    if x.Record? then Some(x.product.id) else None
  }

  /** The status test used by every status count. */
  function HasStatus(st: Status, now: Instant): Item -> bool
  {
    x => GetStatus(x, now) == st
  }

  /** `items.filter(item => getStatus(item) === st).length`. */
  function CountStatus(items: seq<Item>, st: Status, now: Instant): nat
  {
    |Filter(items, HasStatus(st, now))|
  }

  /** Every value has exactly one status, so the three counts add up to the length. */
  lemma {:induction false} StatusPartition(items: seq<Item>, now: Instant)
    ensures CountStatus(items, Expired, now) + CountStatus(items, Low, now)
            + CountStatus(items, Normal, now) == |items|
  {
    if items != [] {
      StatusPartition(items[1..], now);
    }
  }

  /** `sum + item.quantity` on one value: undefined quantity makes NaN (None). */
  function QuantityOf(x: Item): Option<int>
  {
    if x.Record? then Some(x.product.quantity) else None
  }

  /** Addition of two numbers where NaN (None) absorbs. */
  function Plus(a: Option<int>, b: Option<int>): Option<int>
  {
    if a.Some? && b.Some? then Some(a.value + b.value) else None
  }

  /**
   * `items.reduce((sum, item) => sum + item.quantity, 0)`: a number when
   * every value is a record, NaN (None) as soon as one is not.
   */
  function QuantitySum(items: seq<Item>): (r: Option<int>)
    ensures r.Some? <==> forall x :: x in items ==> x.Record?
  {
    if items == [] then Some(0) else Plus(QuantityOf(items[0]), QuantitySum(items[1..]))
  }

  /** Summing a concatenation is adding the two sums. */
  lemma {:induction false} QuantitySumConcat(a: seq<Item>, b: seq<Item>)
    ensures QuantitySum(a + b) == Plus(QuantitySum(a), QuantitySum(b))
  {
    if a == [] {
      assert a + b == b;
    } else {
      assert (a + b)[1..] == a[1..] + b;
      QuantitySumConcat(a[1..], b);
    }
  }

  /**
   * The inventory object: its keys in insertion order (the order of
   * `Object.keys` and `Object.values`) and the list filed under each key.
   */
  datatype Inventory = Inventory(keys: seq<string>, lists: map<string, seq<Item>>)
  {
    ghost predicate Valid()
    {
      && (forall i, j :: 0 <= i < j < |keys| ==> keys[i] != keys[j])
      && (forall k :: k in lists <==> k in keys)
    }
  }

  /** `Object.values(inventory).flat()`: every list, in key order. */
  function Flatten(keys: seq<string>, lists: map<string, seq<Item>>): (r: seq<Item>)
    requires forall k :: k in keys ==> k in lists
    ensures forall k, x :: k in keys && x in lists[k] ==> x in r
    ensures forall x :: x in r ==> exists k :: k in keys && x in lists[k]
  {
    if keys == [] then [] else lists[keys[0]] + Flatten(keys[1..], lists)
  }

  /** All items of an inventory. */
  function AllItems(inv: Inventory): seq<Item>
    requires inv.Valid()
  {
    Flatten(inv.keys, inv.lists)
  }

  /** `Object.values(parsed).some(store => store.length > 0)`. */
  predicate HasItems(inv: Inventory)
  {
    exists k :: k in inv.lists && |inv.lists[k]| > 0
  }

  /** The test `item.id !== id` of `deleteProduct`. */
  function NotId(id: Id): Item -> bool
  {
    x => ItemId(x) != Some(id)
  }

  /** `list.filter(item => item.id !== id)`. */
  function Without(items: seq<Item>, id: Id): seq<Item>
  {
    Filter(items, NotId(id))
  }

  /** Deleting removes every value carrying the id and nothing else. */
  lemma WithoutExactly(items: seq<Item>, id: Id, x: Item)
    ensures x in Without(items, id) <==> x in items && ItemId(x) != Some(id)
  {
    if x in items && ItemId(x) != Some(id) {
      FilterComplete(items, NotId(id), x);
    }
  }

  /** Survivors keep their order: deleting distributes over any split of the list. */
  lemma WithoutKeepsOrder(a: seq<Item>, b: seq<Item>, id: Id)
    ensures Without(a + b, id) == Without(a, id) + Without(b, id)
  {
    FilterConcat(a, b, NotId(id));
  }

  /** Deleting an id twice is deleting it once. */
  lemma WithoutIdempotent(items: seq<Item>, id: Id)
    ensures Without(Without(items, id), id) == Without(items, id)
  {
    FilterIdempotent(items, NotId(id));
  }

  /** Deleting an id nobody carries leaves the list as it was. */
  lemma WithoutAbsent(items: seq<Item>, id: Id)
    requires forall x :: x in items ==> ItemId(x) != Some(id)
    ensures Without(items, id) == items
  {
    FilterKeepsAll(items, NotId(id));
  }

  /**
   * The map `addProduct` builds: the same keys, x in front of one store's list,
   * every other list as it was.
   */
  function AddTo(inv: Inventory, store: string, x: Item): (r: Inventory)
    requires inv.Valid() && store in inv.lists
    ensures r.Valid()
    ensures r.keys == inv.keys && r.lists.Keys == inv.lists.Keys
    ensures r.lists[store] == [x] + inv.lists[store]
    ensures |r.lists[store]| == |inv.lists[store]| + 1 && r.lists[store][0] == x
    ensures forall k :: k in r.lists && k != store ==> r.lists[k] == inv.lists[k]
  {
    Inventory(inv.keys, inv.lists[store := [x] + inv.lists[store]])
  }

  /**
   * The map `deleteProduct` builds: the same keys, one store's list without
   * the values carrying the id, every other list as it was.
   */
  function DeleteFrom(inv: Inventory, store: string, id: Id): (r: Inventory)
    requires inv.Valid() && store in inv.lists
    ensures r.Valid()
    ensures r.keys == inv.keys && r.lists.Keys == inv.lists.Keys
    ensures forall x :: x in r.lists[store] <==> x in inv.lists[store] && ItemId(x) != Some(id)
    ensures r.lists[store] == Without(inv.lists[store], id)
    ensures forall k :: k in r.lists && k != store ==> r.lists[k] == inv.lists[k]
  {
    var kept := Without(inv.lists[store], id);
    forall x | x in inv.lists[store] && ItemId(x) != Some(id)
      ensures x in kept
    {
      WithoutExactly(inv.lists[store], id, x);
    }
    Inventory(inv.keys, inv.lists[store := kept])
  }

  /** Deleting the same id twice from a store is deleting it once. */
  lemma DeleteFromIdempotent(inv: Inventory, store: string, id: Id)
    requires inv.Valid() && store in inv.lists
    ensures DeleteFrom(DeleteFrom(inv, store, id), store, id) == DeleteFrom(inv, store, id)
  {
    WithoutIdempotent(inv.lists[store], id);
  }

  // ---------------------------------------------------------------------------
  // Seed data

  const SeedStores: seq<string> := ["Store A", "Store B", "Store C", "Store D"]

  /** The name/category catalogue the generator picks from. */
  const SampleVaccines: seq<(string, string)> := [
    ("COVID-19 Vaccine", "Viral"),
    ("Influenza Vaccine", "Viral"),
    ("Polio Vaccine", "Viral"),
    ("MMR Vaccine", "Viral"),
    ("Tetanus Vaccine", "Bacterial"),
    ("Hepatitis B", "Viral"),
    ("Varicella Vaccine", "Viral"),
    ("Yellow Fever", "Viral"),
    ("Meningococcal", "Bacterial"),
    ("Pertussis Vaccine", "Bacterial")
  ]

  const Temperatures: seq<string> := ["2-8°C", "15-25°C", "-20°C or below"]

  /**
   * The random outcomes behind one seeded record: the id, the catalogue index,
   * `Math.floor(Math.random() * 730)`, `Math.floor(Math.random() * 300)`, the
   * batch code and the temperature index.
   */
  datatype Draw = Draw(id: Id, vaccine: int, dayDraw: int, quantityDraw: int, batchCode: string, temperature: int)

  predicate DrawInRange(d: Draw)
  {
    && 0 <= d.vaccine < |SampleVaccines|
    && 0 <= d.dayDraw < 730
    && 0 <= d.quantityDraw < 300
    && 0 <= d.temperature < |Temperatures|
  }

  /** One list of draws per seed store, each 6 to 8 long (`Math.floor(Math.random() * 3) + 6`). */
  predicate SeedDraws(draws: seq<seq<Draw>>)
  {
    && |draws| == |SeedStores|
    && (forall s :: 0 <= s < |draws| ==> 6 <= |draws[s]| <= 8)
    && (forall s, i :: 0 <= s < |draws| && 0 <= i < |draws[s]| ==> DrawInRange(draws[s][i]))
  }

  function SeedRecord(d: Draw, today: Day): Product
    requires DrawInRange(d)
  {
    Product(
      d.id,
      None,
      SampleVaccines[d.vaccine].0,
      SampleVaccines[d.vaccine].1,
      d.quantityDraw + 20,
      "BATCH-" + d.batchCode,
      today + (d.dayDraw - 180),
      Temperatures[d.temperature])
  }

  function SeedList(ds: seq<Draw>, today: Day): (r: seq<Item>)
    requires forall d :: d in ds ==> DrawInRange(d)
    ensures |r| == |ds|
  {
    seq(|ds|, i requires 0 <= i < |ds| => Record(SeedRecord(ds[i], today)))
  }

  function SeedInventory(today: Day, draws: seq<seq<Draw>>): Inventory
    requires SeedDraws(draws)
  {
    Inventory(SeedStores, map[
      "Store A" := SeedList(draws[0], today),
      "Store B" := SeedList(draws[1], today),
      "Store C" := SeedList(draws[2], today),
      "Store D" := SeedList(draws[3], today)])
  }

  /** What the generator promises about every seeded inventory. */
  ghost predicate SeedShaped(inv: Inventory, today: Day)
  {
    && inv.Valid()
    && inv.keys == SeedStores
    && (forall k :: k in inv.lists ==> 6 <= |inv.lists[k]| <= 8)
    && (forall k, x :: k in inv.lists && x in inv.lists[k] ==>
          && x.Record?
          && x.product.store == None
          && 20 <= x.product.quantity <= 319
          && (x.product.name, x.product.category) in SampleVaccines
          && x.product.temperature in Temperatures
          && today - 180 <= x.product.expiryDate < today + 550)
  }

  lemma SeedListShaped(ds: seq<Draw>, today: Day, x: Item)
    requires forall d :: d in ds ==> DrawInRange(d)
    requires x in SeedList(ds, today)
    ensures x.Record? && x.product.store == None
    ensures 20 <= x.product.quantity <= 319
    ensures (x.product.name, x.product.category) in SampleVaccines
    ensures x.product.temperature in Temperatures
    ensures today - 180 <= x.product.expiryDate < today + 550
  {
    var i :| 0 <= i < |ds| && SeedList(ds, today)[i] == x;
    assert DrawInRange(ds[i]);
  }

  /**
   * Seed data has exactly the keys Store A to D, 6 to 8 records each, with
   * catalogue name/category pairs, quantities 20..319, one of the three
   * temperatures, expiry within [today - 180, today + 549], and no store field.
   * It is never all-empty, so saving it and loading again keeps it.
   */
  lemma SeedInventoryShaped(today: Day, draws: seq<seq<Draw>>)
    requires SeedDraws(draws)
    ensures SeedShaped(SeedInventory(today, draws), today)
    ensures HasItems(SeedInventory(today, draws))
  {
    var inv := SeedInventory(today, draws);
    forall k, x | k in inv.lists && x in inv.lists[k]
      ensures && x.Record?
              && x.product.store == None
              && 20 <= x.product.quantity <= 319
              && (x.product.name, x.product.category) in SampleVaccines
              && x.product.temperature in Temperatures
              && today - 180 <= x.product.expiryDate < today + 550
    {
      var s := if k == "Store A" then 0 else if k == "Store B" then 1 else if k == "Store C" then 2 else 3;
      assert forall d :: d in draws[s] ==> DrawInRange(d);
      SeedListShaped(draws[s], today, x);
    }
    assert |inv.lists["Store A"]| > 0;
  }

  /** `generateInitialData`: four empty stores, then a loop per store pushing its records. */
  method GenerateInitialData(today: Day, draws: seq<seq<Draw>>) returns (inv: Inventory)
    requires SeedDraws(draws)
    ensures inv == SeedInventory(today, draws)
  {
    var lists: map<string, seq<Item>> := map["Store A" := [], "Store B" := [], "Store C" := [], "Store D" := []];
    var stores := SeedStores;
    var s := 0;
    while s < |stores|
      invariant 0 <= s <= |stores|
      invariant lists.Keys == {"Store A", "Store B", "Store C", "Store D"}
      invariant forall k :: 0 <= k < s ==> lists[stores[k]] == SeedList(draws[k], today)
      invariant forall k :: s <= k < |stores| ==> lists[stores[k]] == []
    {
      var productCount := |draws[s]|;
      assert forall d :: d in draws[s] ==> DrawInRange(d);
      var i := 0;
      while i < productCount
        invariant 0 <= i <= productCount
        invariant lists.Keys == {"Store A", "Store B", "Store C", "Store D"}
        invariant lists[stores[s]] == SeedList(draws[s][..i], today)
        invariant forall k :: 0 <= k < s ==> lists[stores[k]] == SeedList(draws[k], today)
        invariant forall k :: s < k < |stores| ==> lists[stores[k]] == []
      {
        var record := SeedRecord(draws[s][i], today);
        assert draws[s][..i + 1] == draws[s][..i] + [draws[s][i]];
        lists := lists[stores[s] := lists[stores[s]] + [Record(record)]];
        i := i + 1;
      }
      assert draws[s][..i] == draws[s];
      s := s + 1;
    }
    inv := Inventory(stores, lists);
  }

  // ---------------------------------------------------------------------------
  // The state container

  /**
   * The hook's `inventory` state and the `vaccine_inventory` storage slot.
   * A mutation changes only the state; the effect that overwrites the slot
   * with the whole inventory is `Save`, run once a render of the new state
   * has been committed.
   */
  class InventoryStore {
    var inventory: Inventory
    ghost var saved: Inventory

    ghost predicate Valid()
      reads this
    {
      inventory.Valid() && saved.Valid()
    }

    /**
     * The lazy initial state: stored data is used when some store in it is
     * non-empty; no stored value, or only empty stores, means seed data.
     */
    constructor Load(stored: Option<Inventory>, today: Day, draws: seq<seq<Draw>>)
      requires stored.Some? ==> stored.value.Valid()
      requires SeedDraws(draws)
      ensures Valid() && saved == inventory
      ensures stored.Some? && HasItems(stored.value) ==> inventory == stored.value
      ensures !(stored.Some? && HasItems(stored.value)) ==> inventory == SeedInventory(today, draws)
    {
      var initial: Inventory;
      if stored.Some? && HasItems(stored.value) {
        initial := stored.value;
      } else {
        initial := GenerateInitialData(today, draws);
        SeedInventoryShaped(today, draws);
      }
      inventory := initial;
      saved := initial;
    }

    /** `addProduct`: the value goes to the front of one store's list. */
    method AddProduct(store: string, x: Item)
      requires Valid() && store in inventory.lists
      modifies this`inventory
      ensures Valid()
      ensures inventory == AddTo(old(inventory), store, x)
    {
      inventory := AddTo(inventory, store, x);
    }

    /** `deleteProduct`: every value carrying the id leaves one store's list. */
    method DeleteProduct(store: string, id: Id)
      requires Valid() && store in inventory.lists
      modifies this`inventory
      ensures Valid()
      ensures inventory == DeleteFrom(old(inventory), store, id)
    {
      inventory := DeleteFrom(inventory, store, id);
    }

    /** The save effect: the slot takes the whole current inventory. */
    method Save()
      requires Valid()
      modifies this`saved
      ensures Valid() && saved == inventory
    {
      saved := inventory;
    }
  }
}
