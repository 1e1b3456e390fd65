/**
 * The dashboard: totals over every store, the status counts, the per-store
 * figures and their name search, the cross-store product search, and the
 * add form whose submit only closes the modal.
 *
 * The product search reads `item.name.toLowerCase()` on every value, which
 * throws a TypeError when a value is not a product record; the search is
 * then None.
 */
module Dashboard {
  import opened Strings
  import opened Seqs
  import opened UseInventory
  import opened InventoryCharts

  // ---------------------------------------------------------------------------
  // Totals

  /** `allItems.length`. */
  function TotalProducts(inv: Inventory): nat
    requires inv.Valid()
  {
    |AllItems(inv)|
  }

  /** `allItems.reduce((sum, item) => sum + item.quantity, 0)`. */
  function TotalQuantity(inv: Inventory): Option<int>
    requires inv.Valid()
  {
    QuantitySum(AllItems(inv))
  }

  /** `allItems.filter(item => getStatus(item) === st).length`. */
  function StatusCount(inv: Inventory, st: Status, now: Instant): nat
    requires inv.Valid()
  {
    CountStatus(AllItems(inv), st, now)
  }

  /** The expired, low and normal counts add up to the number of products. */
  lemma StatusCountsCoverAll(inv: Inventory, now: Instant)
    requires inv.Valid()
    ensures StatusCount(inv, Expired, now) + StatusCount(inv, Low, now) + StatusCount(inv, Normal, now)
            == TotalProducts(inv)
  {
    StatusPartition(AllItems(inv), now);
  }

  // ---------------------------------------------------------------------------
  // Per-store figures

  /**
   * `storeStats`: for each store key in order, its name, its number of
   * values and its unit total; the same figures the bar chart draws.
   */
  function StoreStats(inv: Inventory): seq<Bar>
    requires inv.Valid()
  {
    BarChartData(inv)
  }

  /** The total number of products is the sum of the per-store counts. */
  lemma TotalProductsMatchesStoreStats(inv: Inventory)
    requires inv.Valid()
    ensures TotalProducts(inv) == SumProducts(StoreStats(inv))
  {
    BarsCountAllItems(inv.keys, inv.lists);
  }

  /** The total quantity is the sum of the per-store unit totals (NaN in one makes NaN in both). */
  lemma TotalQuantityMatchesStoreStats(inv: Inventory)
    requires inv.Valid()
    ensures TotalQuantity(inv) == SumQuantities(StoreStats(inv))
  {
    BarsSumAllQuantities(inv.keys, inv.lists);
  }

  function StoreNameTest(query: string): Bar -> bool
  {
    (b: Bar) => ContainsIgnoreCase(b.store, query)
  }

  /** `filteredStoreStats`: the stores whose name contains the query, ignoring case. */
  function FilteredStoreStats(inv: Inventory, query: string): seq<Bar>
    requires inv.Valid()
  {
    Filter(StoreStats(inv), StoreNameTest(query))
  }

  /** Exactly the stores whose name contains the query are kept, in key order. */
  lemma FilteredStoreStatsExactly(inv: Inventory, query: string)
    requires inv.Valid()
    ensures forall b :: b in FilteredStoreStats(inv, query) <==> b in StoreStats(inv) && ContainsIgnoreCase(b.store, query)
  {
    forall b | b in StoreStats(inv) && ContainsIgnoreCase(b.store, query)
      ensures b in FilteredStoreStats(inv, query)
    {
      FilterComplete(StoreStats(inv), StoreNameTest(query), b);
    }
  }

  /** An empty query keeps every store. */
  lemma EmptyQueryKeepsAllStores(inv: Inventory)
    requires inv.Valid()
    ensures FilteredStoreStats(inv, "") == StoreStats(inv)
  {
    forall b | b in StoreStats(inv)
      ensures StoreNameTest("")(b)
    {
      EmptyQueryMatches(b.store);
    }
    FilterKeepsAll(StoreStats(inv), StoreNameTest(""));
  }

  // ---------------------------------------------------------------------------
  // Product search by name or category

  /** `item.name` or `item.category` contains the query, ignoring case. */
  predicate MatchesNameOrCategory(p: Product, query: string)
  {
    ContainsIgnoreCase(p.name, query) || ContainsIgnoreCase(p.category, query)
  }

  function NameOrCategoryTest(query: string): Item -> bool
  {
    (x: Item) => x.Record? && MatchesNameOrCategory(x.product, query)
  }

  /**
   * `items.filter(item => item.name... || item.category...)`: the matching
   * values in order, or None when a value that is not a record makes the
   * test throw.
   */
  function SearchItems(items: seq<Item>, query: string): (r: Option<seq<Item>>)
    ensures r.Some? <==> forall x :: x in items ==> x.Record?
  {
    if forall x :: x in items ==> x.Record? then Some(Filter(items, NameOrCategoryTest(query))) else None
  }

  /** The search keeps exactly the records whose name or category contains the query. */
  lemma SearchItemsExactly(items: seq<Item>, query: string)
    requires forall x :: x in items ==> x.Record?
    ensures forall x :: x in SearchItems(items, query).value <==> x in items && MatchesNameOrCategory(x.product, query)
  {
    forall x | x in items && MatchesNameOrCategory(x.product, query)
      ensures x in SearchItems(items, query).value
    {
      FilterComplete(items, NameOrCategoryTest(query), x);
    }
  }

  /** The search keeps relative order: searching a concatenation concatenates the results. */
  lemma SearchItemsKeepsOrder(a: seq<Item>, b: seq<Item>, query: string)
    requires forall x :: x in a + b ==> x.Record?
    ensures SearchItems(a + b, query).value == SearchItems(a, query).value + SearchItems(b, query).value
  {
    FilterConcat(a, b, NameOrCategoryTest(query));
  }

  /** An empty query keeps every value, unless one of them makes the search throw. */
  lemma SearchEmptyQuery(items: seq<Item>)
    requires forall x :: x in items ==> x.Record?
    ensures SearchItems(items, "") == Some(items)
  {
    forall x | x in items
      ensures NameOrCategoryTest("")(x)
    {
      EmptyQueryMatches(x.product.name);
    }
    FilterKeepsAll(items, NameOrCategoryTest(""));
  }

  /** `searchResults`: the search over all items of every store. */
  function SearchResults(inv: Inventory, query: string): Option<seq<Item>>
    requires inv.Valid()
  {
    SearchItems(AllItems(inv), query)
  }

  /** The results are the matching records of every store, and only those. */
  lemma SearchResultsExactly(inv: Inventory, query: string)
    requires inv.Valid()
    requires forall k, x :: k in inv.lists && x in inv.lists[k] ==> x.Record?
    ensures SearchResults(inv, query).Some?
    ensures forall x :: x in SearchResults(inv, query).value <==>
              (exists k :: k in inv.lists && x in inv.lists[k]) && MatchesNameOrCategory(x.product, query)
  {
    SearchItemsExactly(AllItems(inv), query);
  }

  // ---------------------------------------------------------------------------
  // The dashboard's own state

  /** The dashboard component's fields. */
  class DashboardView {
    var searchQuery: string
    var isAddFormOpen: bool
    var selectedStoreForAdd: string

    constructor ()
      ensures searchQuery == "" && !isAddFormOpen && selectedStoreForAdd == "Store A"
    {
      searchQuery := "";
      isAddFormOpen := false;
      selectedStoreForAdd := "Store A";
    }

    /** The add form's submit: the modal closes and nothing is filed anywhere. */
    method SubmitAddForm(store: UseInventory.InventoryStore)
      modifies this`isAddFormOpen
      ensures !isAddFormOpen
      ensures store.inventory == old(store.inventory) && store.saved == old(store.saved)
      ensures searchQuery == old(searchQuery) && selectedStoreForAdd == old(selectedStoreForAdd)
    {
      isAddFormOpen := false;
    }
  }
}
