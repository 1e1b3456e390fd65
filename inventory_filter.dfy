/**
 * The filter panel: three filters chained one after another (text on name or
 * batch, status, category), a stable sort by one of four keys, the category
 * menu and the reset. The sort is done in place, and when no filter ran the
 * array sorted is the caller's own `items`.
 */
module InventoryFilter {
  import opened Strings
  import opened Seqs
  import opened Sorting
  import opened UseInventory

  // ---------------------------------------------------------------------------
  // The three filters

  /** `item.name` or `item.batch` contains the query, ignoring case. */
  predicate MatchesQuery(p: Product, query: string)
  {
    ContainsIgnoreCase(p.name, query) || ContainsIgnoreCase(p.batch, query)
  }

  function QueryTest(query: string): Product -> bool
  {
    p => MatchesQuery(p, query)
  }

  function StatusTest(status: string, now: Instant): Product -> bool
  {
    p => StatusName(Classify(p, now)) == status
  }

  function CategoryTest(category: string): Product -> bool
  {
    (p: Product) => p.category == category
  }

  /** A product passes every filter that is switched on. */
  predicate Passes(p: Product, query: string, status: string, category: string, now: Instant)
  {
    && (query == "" || MatchesQuery(p, query))
    && (status == "all" || StatusName(Classify(p, now)) == status)
    && (category == "all" || p.category == category)
  }

  function PassesTest(query: string, status: string, category: string, now: Instant): Product -> bool
  {
    p => Passes(p, query, status, category, now)
  }

  /** The filter steps of `applyFilters`, each run only when switched on. */
  function Narrow(items: seq<Product>, query: string, status: string, category: string, now: Instant): seq<Product>
  {
    var byQuery := if query != "" then Filter(items, QueryTest(query)) else items;
    var byStatus := if status != "all" then Filter(byQuery, StatusTest(status, now)) else byQuery;
    if category != "all" then Filter(byStatus, CategoryTest(category)) else byStatus
  }

  /** The chained filters keep, in order, exactly the items passing all three. */
  lemma NarrowIsOneFilter(items: seq<Product>, query: string, status: string, category: string, now: Instant)
    ensures Narrow(items, query, status, category, now) == Filter(items, PassesTest(query, status, category, now))
  {
    var t1: Product -> bool := p => query == "" || MatchesQuery(p, query);
    var t2: Product -> bool := p => status == "all" || StatusName(Classify(p, now)) == status;
    var t3: Product -> bool := (p: Product) => category == "all" || p.category == category;
    var t12: Product -> bool := p => t1(p) && t2(p);
    var byQuery := if query != "" then Filter(items, QueryTest(query)) else items;
    var byStatus := if status != "all" then Filter(byQuery, StatusTest(status, now)) else byQuery;
    if query != "" { FilterCongruent(items, QueryTest(query), t1); } else { FilterKeepsAll(items, t1); }
    assert byQuery == Filter(items, t1);
    if status != "all" { FilterCongruent(byQuery, StatusTest(status, now), t2); } else { FilterKeepsAll(byQuery, t2); }
    FilterFilter(items, t1, t2, t12);
    assert byStatus == Filter(items, t12);
    if category != "all" { FilterCongruent(byStatus, CategoryTest(category), t3); } else { FilterKeepsAll(byStatus, t3); }
    FilterFilter(items, t12, t3, PassesTest(query, status, category, now));
  }

  // ---------------------------------------------------------------------------
  // The comparator and the stable sort

  /** `statusOrder`: expired 0, low 1, normal 2. */
  function Rank(s: Status): int
  {
    match s
    case Expired => 0
    case Low => 1
    case Normal => 2
  }

  /** The comparator passed to `sort`; an unknown key compares everything as equal. */
  function Compare(sort: string, a: Product, b: Product, now: Instant): int
  {
    if sort == "name" then LexCompare(a.name, b.name)
    else if sort == "quantity" then b.quantity - a.quantity
    else if sort == "expiry" then a.expiryDate - b.expiryDate
    else if sort == "status" then Rank(Classify(a, now)) - Rank(Classify(b, now))
    else 0
  }

  lemma CompareAntisymmetric(sort: string, a: Product, b: Product, now: Instant)
    ensures Compare(sort, a, b, now) == -Compare(sort, b, a, now)
  {
    if sort == "name" {
      LexCompareAntisymmetric(a.name, b.name);
    }
  }

  lemma CompareTransitive(sort: string, a: Product, b: Product, c: Product, now: Instant)
    requires Compare(sort, a, b, now) <= 0 && Compare(sort, b, c, now) <= 0
    ensures Compare(sort, a, c, now) <= 0
  {
    if sort == "name" {
      LexCompareTransitive(a.name, b.name, c.name);
    }
  }

  /** `le(a, b)` for the comparator: a may stay before b (the comparator is not positive). */
  function Order(sort: string, now: Instant): (Product, Product) -> bool
  {
    (a, b) => Compare(sort, a, b, now) <= 0
  }

  /** Every sort key orders the products by a total preorder. */
  lemma OrderIsTotalPreorder(sort: string, now: Instant)
    ensures TotalPreorder(Order(sort, now))
  {
    var le := Order(sort, now);
    forall a, b
      ensures le(a, b) || le(b, a)
    {
      CompareAntisymmetric(sort, a, b, now);
    }
    forall a, b, c | le(a, b) && le(b, c)
      ensures le(a, c)
    {
      CompareTransitive(sort, a, b, c, now);
    }
  }

  /**
   * The order `Array.prototype.sort` produces with this comparator. That sort is
   * stable and the comparator orders by a key, so any stable algorithm gives
   * this same sequence; insertion from the left is the one used to define it.
   */
  function StableSort(s: seq<Product>, sort: string, now: Instant): seq<Product>
  {
    SortBy(s, Order(sort, now))
  }

  /** The sorted output is a permutation of the input in comparator order. */
  lemma StableSortSorted(s: seq<Product>, sort: string, now: Instant)
    ensures multiset(StableSort(s, sort, now)) == multiset(s)
    ensures forall i, j :: 0 <= i < j < |StableSort(s, sort, now)| ==>
              Compare(sort, StableSort(s, sort, now)[i], StableSort(s, sort, now)[j], now) <= 0
  {
    OrderIsTotalPreorder(sort, now);
    SortBySorted(s, Order(sort, now));
    SortByPermutation(s, Order(sort, now));
  }

  /** The items that compare equal to e. */
  function TieTest(e: Product, sort: string, now: Instant): Product -> bool
  {
    x => Compare(sort, x, e, now) == 0
  }

  /** Stability: the items that compare equal keep their relative input order. */
  lemma StableSortStable(s: seq<Product>, e: Product, sort: string, now: Instant)
    ensures Filter(StableSort(s, sort, now), TieTest(e, sort, now)) == Filter(s, TieTest(e, sort, now))
  {
    var le := Order(sort, now);
    OrderIsTotalPreorder(sort, now);
    SortByStable(s, e, le);
    forall x
      ensures TieWith(e, le)(x) == TieTest(e, sort, now)(x)
    {
      CompareAntisymmetric(sort, x, e, now);
    }
    FilterCongruent(SortBy(s, le), TieWith(e, le), TieTest(e, sort, now));
    FilterCongruent(s, TieWith(e, le), TieTest(e, sort, now));
  }

  /** An unknown sort key compares everything as 0, so the order is left as it was. */
  lemma UnknownKeyKeepsOrder(s: seq<Product>, sort: string, now: Instant)
    requires sort !in ["name", "quantity", "expiry", "status"]
    ensures StableSort(s, sort, now) == s
  {
    SortByAllEqual(s, Order(sort, now));
  }

  /** Sort "quantity": quantities never increase along the output. */
  lemma SortByQuantityDescending(s: seq<Product>, now: Instant)
    ensures forall i, j :: 0 <= i < j < |StableSort(s, "quantity", now)| ==>
              StableSort(s, "quantity", now)[i].quantity >= StableSort(s, "quantity", now)[j].quantity
  {
    StableSortSorted(s, "quantity", now);
  }

  /** Sort "expiry": expiry dates never decrease along the output. */
  lemma SortByExpiryAscending(s: seq<Product>, now: Instant)
    ensures forall i, j :: 0 <= i < j < |StableSort(s, "expiry", now)| ==>
              StableSort(s, "expiry", now)[i].expiryDate <= StableSort(s, "expiry", now)[j].expiryDate
  {
    StableSortSorted(s, "expiry", now);
  }

  /** Sort "name": names in lexicographic order. */
  lemma SortByNameAscending(s: seq<Product>, now: Instant)
    ensures forall i, j :: 0 <= i < j < |StableSort(s, "name", now)| ==>
              LexCompare(StableSort(s, "name", now)[i].name, StableSort(s, "name", now)[j].name) <= 0
  {
    StableSortSorted(s, "name", now);
  }

  /** The items of one status, in the order they appear. */
  function StatusIs(st: Status, now: Instant): Product -> bool
  {
    p => Classify(p, now) == st
  }

  /**
   * Sort "status": ranks never decrease (expired, then low, then normal), and
   * the items of each status keep their relative input order.
   */
  lemma SortByStatus(s: seq<Product>, now: Instant, e: Product)
    ensures forall i, j :: 0 <= i < j < |StableSort(s, "status", now)| ==>
              Rank(Classify(StableSort(s, "status", now)[i], now)) <= Rank(Classify(StableSort(s, "status", now)[j], now))
    ensures Filter(StableSort(s, "status", now), StatusIs(Classify(e, now), now))
            == Filter(s, StatusIs(Classify(e, now), now))
  {
    StableSortSorted(s, "status", now);
    StableSortStable(s, e, "status", now);
    var r := StableSort(s, "status", now);
    assert forall x :: TieTest(e, "status", now)(x) == StatusIs(Classify(e, now), now)(x);
    FilterCongruent(r, TieTest(e, "status", now), StatusIs(Classify(e, now), now));
    FilterCongruent(s, TieTest(e, "status", now), StatusIs(Classify(e, now), now));
  }

  /** What `applyFilters` hands to `onFilter`. */
  function FilterView(items: seq<Product>, query: string, status: string, category: string, sort: string, now: Instant): seq<Product>
  {
    StableSort(Narrow(items, query, status, category, now), sort, now)
  }

  /**
   * The output holds exactly the input items that pass all three filters (as
   * a multiset: a permutation of them), and every output item passes: its
   * name or batch contains a non-empty query, its status is the status filter
   * and its category the category filter, each unless that filter is "all".
   */
  lemma FilterViewExactly(items: seq<Product>, query: string, status: string, category: string, sort: string, now: Instant)
    ensures multiset(FilterView(items, query, status, category, sort, now))
            == multiset(Filter(items, PassesTest(query, status, category, now)))
    ensures forall p :: p in FilterView(items, query, status, category, sort, now) ==>
              && p in items
              && (query != "" ==> ContainsIgnoreCase(p.name, query) || ContainsIgnoreCase(p.batch, query))
              && (status != "all" ==> StatusName(Classify(p, now)) == status)
              && (category != "all" ==> p.category == category)
    ensures forall p :: p in items && Passes(p, query, status, category, now) ==>
              p in FilterView(items, query, status, category, sort, now)
  {
    NarrowIsOneFilter(items, query, status, category, now);
    StableSortSorted(Narrow(items, query, status, category, now), sort, now);
    var kept := Filter(items, PassesTest(query, status, category, now));
    var out := FilterView(items, query, status, category, sort, now);
    assert multiset(out) == multiset(kept);
    forall p | p in out
      ensures p in kept
    {
      assert p in multiset(out);
    }
    forall p | p in items && Passes(p, query, status, category, now)
      ensures p in out
    {
      FilterComplete(items, PassesTest(query, status, category, now), p);
      assert p in multiset(kept);
    }
  }

  /** With every filter at its neutral value, every item is kept. */
  lemma NoFilterKeepsAll(items: seq<Product>, sort: string, now: Instant)
    ensures multiset(FilterView(items, "", "all", "all", sort, now)) == multiset(items)
  {
    StableSortSorted(items, sort, now);
  }

  // ---------------------------------------------------------------------------
  // Category menu

  /** `new Set(xs)` read back as a sequence: each value once, in first-insertion order. */
  function UniqueInOrder(xs: seq<string>): (r: seq<string>)
    ensures forall x :: x in r <==> x in xs
    ensures forall i, j :: 0 <= i < j < |r| ==> r[i] != r[j]
  {
    if xs == [] then []
    else
      var r := UniqueInOrder(xs[..|xs| - 1]);
      var last := xs[|xs| - 1];
      assert xs == xs[..|xs| - 1] + [last];
      if last in r then r else r + [last]
  }

  /** The first index at which x occurs in xs. */
  function FirstIndex(xs: seq<string>, x: string): (k: nat)
    requires x in xs
    ensures k < |xs| && xs[k] == x
    ensures forall i :: 0 <= i < k ==> xs[i] != x
  {
    if xs[0] == x then 0 else 1 + FirstIndex(xs[1..], x)
  }

  /** A value occurring in a prefix is first found at the same index in the prefix and in the whole. */
  lemma FirstIndexPrefix(xs: seq<string>, n: nat, x: string)
    requires n <= |xs| && x in xs[..n]
    ensures FirstIndex(xs, x) == FirstIndex(xs[..n], x)
  {
  }

  /** The values come out in the order of their first appearance. */
  lemma {:induction false} UniqueInOrderFirstAppearance(xs: seq<string>)
    ensures forall i, j :: 0 <= i < j < |UniqueInOrder(xs)| ==>
              FirstIndex(xs, UniqueInOrder(xs)[i]) < FirstIndex(xs, UniqueInOrder(xs)[j])
  {
    if xs != [] {
      var init := xs[..|xs| - 1];
      var last := xs[|xs| - 1];
      var r := UniqueInOrder(init);
      UniqueInOrderFirstAppearance(init);
      assert xs == init + [last];
      forall i | 0 <= i < |r|
        ensures FirstIndex(xs, r[i]) == FirstIndex(init, r[i])
      {
        assert init == xs[..|xs| - 1];
        FirstIndexPrefix(xs, |xs| - 1, r[i]);
      }
      if last !in r {
        assert FirstIndex(xs, last) == |xs| - 1;
      }
    }
  }

  /** `items.map(item => item.category)`. */
  function CategoriesOf(items: seq<Product>): (r: seq<string>)
    ensures |r| == |items| && forall i :: 0 <= i < |items| ==> r[i] == items[i].category
  {
    seq(|items|, i requires 0 <= i < |items| => items[i].category)
  }

  /** The category menu: "all", then each distinct category once, in first-appearance order. */
  function Categories(items: seq<Product>): (r: seq<string>)
    ensures |r| >= 1 && r[0] == "all"
    ensures forall c :: c in r[1..] <==> exists p :: p in items && p.category == c
    ensures forall i, j :: 1 <= i < j < |r| ==> r[i] != r[j]
  {
    var cats := CategoriesOf(items);
    assert forall c :: c in cats <==> exists p :: p in items && p.category == c by {
      forall c | c in cats ensures exists p :: p in items && p.category == c {
        var i :| 0 <= i < |cats| && cats[i] == c;
        assert items[i] in items;
      }
      forall c | (exists p :: p in items && p.category == c) ensures c in cats {
        var p :| p in items && p.category == c;
        var i :| 0 <= i < |items| && items[i] == p;
        assert cats[i] == c;
      }
    }
    ["all"] + UniqueInOrder(cats)
  }

  // ---------------------------------------------------------------------------
  // In-place sort and the panel

  /**
   * The panel's state: the four filter fields, the caller's `items` array and
   * the list last handed to `onFilter`.
   */
  class FilterPanel {
    const items: array<Product>
    var searchQuery: string
    var statusFilter: string
    var categoryFilter: string
    var sortBy: string
    var delivered: seq<Product>

    constructor (items: array<Product>)
      ensures this.items == items && delivered == []
      ensures searchQuery == "" && statusFilter == "all" && categoryFilter == "all" && sortBy == "name"
    {
      this.items := items;
      searchQuery := "";
      statusFilter := "all";
      categoryFilter := "all";
      sortBy := "name";
      delivered := [];
    }

    /**
     * `applyFilters`: filters step by step, then sorts in place. When no filter
     * ran, the array sorted is `items` itself, so the caller's list is reordered.
     */
    method ApplyFilters(query: string, status: string, category: string, sort: string, now: Instant)
      modifies this`delivered, items
      ensures delivered == FilterView(old(items[..]), query, status, category, sort, now)
      ensures query == "" && status == "all" && category == "all" ==> items[..] == delivered
      ensures !(query == "" && status == "all" && category == "all") ==> items[..] == old(items[..])
    {
      var filtered := items[..];
      var narrowed := false;
      if query != "" {
        filtered := Filter(filtered, QueryTest(query));
        narrowed := true;
      }
      if status != "all" {
        filtered := Filter(filtered, StatusTest(status, now));
        narrowed := true;
      }
      if category != "all" {
        filtered := Filter(filtered, CategoryTest(category));
        narrowed := true;
      }
      if narrowed {
        var copy := new Product[|filtered|](i requires 0 <= i < |filtered| => filtered[i]);
        assert copy[..] == filtered;
        SortInPlace(copy, Order(sort, now));
        delivered := copy[..];
      } else {
        SortInPlace(items, Order(sort, now));
        delivered := items[..];
      }
    }

    method HandleSearch(value: string, now: Instant)
      modifies this`searchQuery, this`delivered, items
      ensures searchQuery == value
      ensures delivered == FilterView(old(items[..]), value, statusFilter, categoryFilter, sortBy, now)
      ensures value == "" && statusFilter == "all" && categoryFilter == "all" ==> items[..] == delivered
      ensures !(value == "" && statusFilter == "all" && categoryFilter == "all") ==> items[..] == old(items[..])
    {
      searchQuery := value;
      ApplyFilters(value, statusFilter, categoryFilter, sortBy, now);
    }

    method HandleStatusChange(value: string, now: Instant)
      modifies this`statusFilter, this`delivered, items
      ensures statusFilter == value
      ensures delivered == FilterView(old(items[..]), searchQuery, value, categoryFilter, sortBy, now)
      ensures searchQuery == "" && value == "all" && categoryFilter == "all" ==> items[..] == delivered
      ensures !(searchQuery == "" && value == "all" && categoryFilter == "all") ==> items[..] == old(items[..])
    {
      statusFilter := value;
      ApplyFilters(searchQuery, value, categoryFilter, sortBy, now);
    }

    method HandleCategoryChange(value: string, now: Instant)
      modifies this`categoryFilter, this`delivered, items
      ensures categoryFilter == value
      ensures delivered == FilterView(old(items[..]), searchQuery, statusFilter, value, sortBy, now)
      ensures searchQuery == "" && statusFilter == "all" && value == "all" ==> items[..] == delivered
      ensures !(searchQuery == "" && statusFilter == "all" && value == "all") ==> items[..] == old(items[..])
    {
      categoryFilter := value;
      ApplyFilters(searchQuery, statusFilter, value, sortBy, now);
    }

    method HandleSortChange(value: string, now: Instant)
      modifies this`sortBy, this`delivered, items
      ensures sortBy == value
      ensures delivered == FilterView(old(items[..]), searchQuery, statusFilter, categoryFilter, value, now)
      ensures searchQuery == "" && statusFilter == "all" && categoryFilter == "all" ==> items[..] == delivered
      ensures !(searchQuery == "" && statusFilter == "all" && categoryFilter == "all") ==> items[..] == old(items[..])
    {
      sortBy := value;
      ApplyFilters(searchQuery, statusFilter, categoryFilter, value, now);
    }

    /**
     * `handleReset`: every filter back to its default and the list re-sorted by
     * name; no filter runs, so `items` itself ends up sorted by name.
     */
    method HandleReset(now: Instant)
      modifies this`searchQuery, this`statusFilter, this`categoryFilter, this`sortBy, this`delivered, items
      ensures searchQuery == "" && statusFilter == "all" && categoryFilter == "all" && sortBy == "name"
      ensures delivered == StableSort(old(items[..]), "name", now)
      ensures items[..] == delivered
    {
      searchQuery, statusFilter, categoryFilter, sortBy := "", "all", "all", "name";
      ApplyFilters("", "all", "all", "name", now);
    }
  }
}
