# Vaccine inventory: a Dafny model of the inventory engine and its views

The application tracks vaccine and drug stock across four stores. It has
these parts:

- **A hook.** It keeps a map from store name to a list of product records.
  It seeds that map with random records when nothing useful is saved. It
  adds a record at the front of a store's list and deletes records by id,
  and an effect saves the whole map after each committed render of a
  changed map. It also classifies each record as expired, low or normal.
- **A filter panel.** It narrows a list by a text query on name or batch, by
  status and by category, then sorts the list in place by name, quantity,
  expiry or status.
- **An add form.** It validates five required fields and builds a record.
- **A controller.** It holds the selected store and page, the delete
  confirmation, and the edit/add path.
- **The dashboard views.** They compute totals, status counts, per-store
  figures, cross-store search, the two highlight classes and the chart data.

The model keeps each source file's own form:

- Pure derivations are functions, and the lemmas about them are proved.
- The hook's state is a class. Its ghost `saved` field stands for the
  storage slot.
- The filter panel and the form are classes whose handlers update their
  fields.
- `generateInitialData` is a method with nested loops.
- The comparator sort is an in-place insertion sort on an `array`. It is
  proved equal to a stable sort function, and that function is proved
  sorted, a permutation and stable.

Modules, one per source file, plus three shared ones:

| module | models |
|---|---|
| `Strings` | `toLowerCase` (ASCII), `includes`, `localeCompare` as code-point order |
| `Seqs` | `Array.prototype.filter` and its laws |
| `Sorting` | a stable sort under a total preorder, and the in-place insertion sort |
| `UseInventory` | `src/hooks/useInventory.js` |
| `InventoryFilter` | `src/components/InventoryFilter.jsx` |
| `AddProductForm` | `src/components/AddProductForm.jsx` |
| `App` | `src/App.jsx`, with the modal wiring of `src/components/FormModal.jsx` |
| `Dashboard` | `src/components/Dashboard.jsx` |
| `DashboardStats` | `src/components/DashboardStats.jsx` |
| `InventoryCharts` | `src/components/InventoryCharts.jsx` |

## Modelling decisions

**Dates.** A date is a day number, counted in UTC. The current instant `now`
is a parameter in milliseconds on the same time line, so `getStatus` compares
`Midnight(expiryDate)`, midnight UTC of the expiry date, with it, as
`new Date("YYYY-MM-DD") < new Date()` does. The seed's `today` is the UTC day
of the generation instant. The form's date text and `Number(quantity)` are
injected conversions. The clock reading used as a new id is also a parameter.

**Rendering and saving.** A change of the inventory is followed by a render
of the controller, and the save effect runs only when that render completes.
The controller computes `searchedItems` on every render, whatever the page,
and the dashboard page also searches every store. Both read `item.name` of
every value. A render that throws is never committed, so its save does not
run. `App.AppState.Commit` models this step, and the hook's own mutations
leave the saved slot alone.

**Random draws.** The seed generator's random draws are inputs. Each draw is
constrained to the range the code draws from.

**Inventory keys.** An inventory value keeps its keys in insertion order.
That is the order of `Object.keys` and `Object.values`, which every per-store
view follows. It keeps the lists in a map.

**Values that are not records.** A value filed in a store is a product
record, or one of the two values that are not records which the controller
files:

- the store-name string on the edit path;
- `arguments[1] || {}` on the add path.

These are kept as values, and the views handle them as JavaScript does:

| JavaScript behaviour | in the model |
|---|---|
| a missing `quantity` makes a sum `NaN` | `None` |
| `getStatus` on a value that is not a record | "normal" |
| a search that reads `.name.toLowerCase()` on such a value throws | `None` |

**Seeded records.** Seeded records carry no `store` field. Only the add form
sets one.

**Where the code differs from the repository's design description, the
model follows the code:**

- The filter panel's text query matches name or batch, not category.
- Editing deletes the record and files a new value at the front of the
  store instead of replacing it in place. The value filed is the store name;
  see below.
- Loading does not backfill `store`.
- The hook does no validation. The form requires `batch` as well.
- There is no update operation and no CSV export.
- A product counts as expired from midnight UTC of the date written on it,
  so it is already expired on that day (`UseInventory.ExpiredOnItsOwnDay`),
  not only once the date is before today. A seeded record with a zero
  offset is expired as soon as it is generated.

**`handleEditSave` is modelled as written.** It reads only its first
parameter, but the modal passes `(store, product)`. So the edit path files
the store name, the add path files `arguments[1] || {}`, and the product
the form built is dropped. `App.EditSaveBreaksSearch` shows that after
either path the controller's whole render throws, on either page, because
it computes `searchedItems` on every render. So the new state is never
committed or saved, and the storage slot keeps the previous inventory
(`App.AppState.HandleEditSave`).

## Model

| member | source | states |
|---|---|---|
| `Strings.LexCompare` | src/components/InventoryFilter.jsx:43 | the name comparison is -1, 0 or 1, and 0 exactly for equal names; with the two lemmas below it is antisymmetric and transitive |
| `Strings.LexCompareAntisymmetric` | src/components/InventoryFilter.jsx:43 | swapping the names negates the comparison |
| `Strings.LexCompareTransitive` | src/components/InventoryFilter.jsx:43 | the name order is transitive |
| `Strings.EmptyQueryMatches` | src/components/Dashboard.jsx:26-28 | every string contains the empty query, ignoring case |
| `UseInventory.Midnight` | src/hooks/useInventory.js:92 | definition: a date-only expiry string denotes midnight UTC of its day; its property is `UseInventory.ExpiredOnItsOwnDay` |
| `UseInventory.Classify` | src/hooks/useInventory.js:90-97 | expired iff midnight UTC of the expiry date is before the current instant, whatever the quantity; otherwise low iff quantity < 50; normal iff unexpired with quantity >= 50 (so 50 is normal) |
| `UseInventory.ExpiredOnItsOwnDay` | src/hooks/useInventory.js:91-94 | at any instant of a UTC day after its first millisecond, a product is expired iff its expiry date is that day or earlier |
| `UseInventory.GetStatus` | src/hooks/useInventory.js:90-97 | a record gets its classification; a value that is not a record compares no date below the current instant and no quantity below 50, so it is normal |
| `UseInventory.CountStatus` | src/components/Dashboard.jsx:14-16 | definition: the length of the status filter; its properties are `UseInventory.StatusPartition` and `Dashboard.StatusCountsCoverAll` |
| `UseInventory.StatusPartition` | src/components/Dashboard.jsx:14-16 | the expired, low and normal counts of any list add up to its length |
| `UseInventory.QuantitySum` | src/components/DashboardStats.jsx:6 | the quantity sum is a number exactly when every value is a record (NaN otherwise) |
| `UseInventory.QuantitySumConcat` | src/components/Dashboard.jsx:13 | the sum over a concatenation is the sum of the two sums |
| `UseInventory.Flatten` | src/components/Dashboard.jsx:11 | `Object.values(...).flat()` holds every value of every store and nothing else |
| `UseInventory.AddTo` | src/hooks/useInventory.js:74-79 | `addProduct`: same keys, the store's list is the value followed by the old list, every other store unchanged |
| `UseInventory.AllItems` | src/components/Dashboard.jsx:11 | definition: `Flatten` of the store keys in order; its membership property is the ensures of `UseInventory.Flatten` |
| `UseInventory.HasItems` | src/hooks/useInventory.js:59 | definition: some store's list is non-empty; it decides the load in `UseInventory.InventoryStore.Load` |
| `UseInventory.Without` | src/hooks/useInventory.js:85 | definition: the id filter; its properties are `UseInventory.WithoutExactly`, `WithoutKeepsOrder`, `WithoutIdempotent` and `WithoutAbsent` |
| `UseInventory.DeleteFrom` | src/hooks/useInventory.js:82-87 | `deleteProduct`: same keys, the store's list is `Without` of the old one, in order, so it keeps exactly the values not carrying the id, every other store unchanged |
| `UseInventory.DeleteFromIdempotent` | src/hooks/useInventory.js:85 | deleting an id twice from a store equals deleting it once |
| `UseInventory.WithoutExactly` | src/hooks/useInventory.js:85 | a value survives the delete iff it was there and does not carry the id |
| `UseInventory.WithoutKeepsOrder` | src/hooks/useInventory.js:85 | survivors keep their order: the delete distributes over concatenation |
| `UseInventory.WithoutIdempotent` | src/hooks/useInventory.js:85 | filtering an id out twice equals once |
| `UseInventory.WithoutAbsent` | src/hooks/useInventory.js:85 | deleting an id no value carries leaves the list equal |
| `UseInventory.SeedListShaped` | src/hooks/useInventory.js:31-46 | every seeded record has no store field, quantity in 20..319, a catalogue name/category pair, one of the three temperatures, and an expiry in [today-180, today+549] |
| `UseInventory.SeedInventory` | src/hooks/useInventory.js:18-51 | definition: the four stores with the records the draws give; its properties are `UseInventory.SeedInventoryShaped` and `UseInventory.GenerateInitialData` |
| `UseInventory.SeedInventoryShaped` | src/hooks/useInventory.js:4-50 | seed data has exactly the keys Store A-D, 6 to 8 records each, all shaped as above, and is never all-empty |
| `UseInventory.GenerateInitialData` | src/hooks/useInventory.js:18-51 | the loops build exactly the seed inventory for the given draws |
| `UseInventory.InventoryStore.Load` | src/hooks/useInventory.js:54-66 | saved data with some non-empty store is used as is; no saved value or all stores empty gives the seed data; after the first render's save the slot equals the state |
| `UseInventory.InventoryStore.AddProduct` | src/hooks/useInventory.js:74-79 | the state becomes `AddTo` of the old state; the saved slot is not touched |
| `UseInventory.InventoryStore.DeleteProduct` | src/hooks/useInventory.js:82-87 | the state becomes `DeleteFrom` of the old state; the saved slot is not touched |
| `UseInventory.InventoryStore.Save` | src/hooks/useInventory.js:68-71 | the save effect: the slot takes the whole current inventory |
| `Sorting.SortBySorted` | src/components/InventoryFilter.jsx:40 | the stable sort's output is ordered by the comparator |
| `Sorting.SortByPermutation` | src/components/InventoryFilter.jsx:40 | the stable sort's output is a permutation of its input |
| `Sorting.SortByStable` | src/components/InventoryFilter.jsx:40 | elements that compare equal keep their relative input order |
| `Sorting.SortByAllEqual` | src/components/InventoryFilter.jsx:51-52 | when every pair compares as equal the order is left as it was |
| `Sorting.InsertInPlace` | src/components/InventoryFilter.jsx:40 | one insertion step on the array equals the functional insertion, the rest of the array untouched |
| `Sorting.SortInPlace` | src/components/InventoryFilter.jsx:40-54 | `filtered.sort(...)` in place: the array ends up holding the stable sort of its old contents |
| `InventoryFilter.Narrow` | src/components/InventoryFilter.jsx:25-38 | definition: the query, status and category filters, each run only when switched on; its property is `InventoryFilter.NarrowIsOneFilter` |
| `InventoryFilter.NarrowIsOneFilter` | src/components/InventoryFilter.jsx:25-38 | the three chained filters, each run only when switched on, equal one filter by the conjunction of the three tests |
| `InventoryFilter.Compare` | src/components/InventoryFilter.jsx:40-54 | definition: the comparator of each sort key, 0 for an unknown key; its properties are `CompareAntisymmetric`, `CompareTransitive` and `OrderIsTotalPreorder` |
| `InventoryFilter.CompareAntisymmetric` | src/components/InventoryFilter.jsx:40-54 | for every key, swapping the two items negates the comparator |
| `InventoryFilter.CompareTransitive` | src/components/InventoryFilter.jsx:40-54 | for every key, the comparator's "not after" relation is transitive |
| `InventoryFilter.OrderIsTotalPreorder` | src/components/InventoryFilter.jsx:40-54 | every sort key orders products by a total preorder |
| `InventoryFilter.StableSort` | src/components/InventoryFilter.jsx:40-54 | definition: `filtered.sort(...)` as a stable sort under the comparator; its properties are `StableSortSorted`, `StableSortStable` and the per-key `SortBy...` lemmas |
| `InventoryFilter.StableSortSorted` | src/components/InventoryFilter.jsx:40-54 | the sorted list is a permutation of its input, in comparator order |
| `InventoryFilter.StableSortStable` | src/components/InventoryFilter.jsx:40-54 | items the comparator ties keep their relative order |
| `InventoryFilter.UnknownKeyKeepsOrder` | src/components/InventoryFilter.jsx:51-52 | an unknown sort key leaves the filtered order unchanged |
| `InventoryFilter.SortByQuantityDescending` | src/components/InventoryFilter.jsx:44-45 | sort "quantity" gives non-increasing quantities |
| `InventoryFilter.SortByExpiryAscending` | src/components/InventoryFilter.jsx:46-47 | sort "expiry" gives non-decreasing expiry dates |
| `InventoryFilter.SortByNameAscending` | src/components/InventoryFilter.jsx:42-43 | sort "name" gives names in lexicographic order |
| `InventoryFilter.SortByStatus` | src/components/InventoryFilter.jsx:48-50 | sort "status" gives non-decreasing rank (expired 0, low 1, normal 2), and the items of each status keep their relative order |
| `InventoryFilter.FilterView` | src/components/InventoryFilter.jsx:22-56 | definition: the narrowed list stably sorted, the list `onFilter` receives; its properties are `FilterViewExactly` and `NoFilterKeepsAll` |
| `InventoryFilter.FilterViewExactly` | src/components/InventoryFilter.jsx:22-56 | the output is a permutation of exactly the input items that pass all three filters; each output item's name or batch contains a non-empty query, its status equals a status filter other than "all", and its category equals a category filter other than "all"; every passing item is in the output |
| `InventoryFilter.NoFilterKeepsAll` | src/components/InventoryFilter.jsx:22-56 | with the empty query and "all" twice, the output is a permutation of the whole input |
| `InventoryFilter.UniqueInOrder` | src/components/InventoryFilter.jsx:15 | `new Set(xs)` holds exactly the values of xs, each once |
| `InventoryFilter.UniqueInOrderFirstAppearance` | src/components/InventoryFilter.jsx:15 | the distinct values come out in order of first appearance |
| `InventoryFilter.Categories` | src/components/InventoryFilter.jsx:15 | the menu is "all" followed by every item category, each once |
| `InventoryFilter.FilterPanel.constructor` | src/components/InventoryFilter.jsx:9-12 | the filter fields start at "", "all", "all", "name" |
| `InventoryFilter.FilterPanel.ApplyFilters` | src/components/InventoryFilter.jsx:22-57 | hands on exactly the filtered, stably sorted view of the items; when no filter ran the caller's `items` array itself is left sorted (aliasing), otherwise it is untouched |
| `InventoryFilter.FilterPanel.HandleSearch` | src/components/InventoryFilter.jsx:59-62 | sets the query and hands on the view for the new query and the other current fields; and the caller's `items` array ends up holding that view when no filter is switched on, and is untouched otherwise |
| `InventoryFilter.FilterPanel.HandleStatusChange` | src/components/InventoryFilter.jsx:64-67 | sets the status filter and hands on the view for it; and the caller's `items` array ends up holding that view when no filter is switched on, and is untouched otherwise |
| `InventoryFilter.FilterPanel.HandleCategoryChange` | src/components/InventoryFilter.jsx:69-72 | sets the category filter and hands on the view for it; and the caller's `items` array ends up holding that view when no filter is switched on, and is untouched otherwise |
| `InventoryFilter.FilterPanel.HandleSortChange` | src/components/InventoryFilter.jsx:74-77 | sets the sort key and hands on the view for it; and the caller's `items` array ends up holding that view when no filter is switched on, and is untouched otherwise |
| `InventoryFilter.FilterPanel.HandleReset` | src/components/InventoryFilter.jsx:79-85 | all filter fields back to defaults; the whole list sorted by name is handed on, and `items` itself ends up in that order |
| `AddProductForm.With` | src/components/AddProductForm.jsx:16-21 | the named field takes the value and every other field is unchanged |
| `AddProductForm.MissingRequired` | src/components/AddProductForm.jsx:27-33 | a submit is blocked iff one of name, category, quantity, batch, expiryDate is empty; the temperature never blocks |
| `AddProductForm.BuildRecord` | src/components/AddProductForm.jsx:38-43 | the record has the clock id, store = selectedStore, quantity = Number(quantity), and every other field as typed |
| `AddProductForm.Submit` | src/components/AddProductForm.jsx:23-58 | an incomplete form shows the error, makes no call, keeps its fields; a complete one calls `onAdd` once with selectedStore and the built record, then clears every field and the error; the call carries exactly `BuildRecord` of the form |
| `AddProductForm.ResubmitRefused` | src/components/AddProductForm.jsx:49-57 | after a successful submit the cleared form cannot be submitted again |
| `AddProductForm.Form.constructor` | src/components/AddProductForm.jsx:5-14 | all six fields and the error start empty |
| `AddProductForm.Form.HandleChange` | src/components/AddProductForm.jsx:16-21 | only the named field of `formData` changes; the error is untouched |
| `AddProductForm.Form.HandleSubmit` | src/components/AddProductForm.jsx:23-58 | fields, error and the call made are those of `Submit` |
| `App.FilteredItems` | src/App.jsx:56 | the selected store's list, or empty for a key the inventory lacks |
| `App.SearchedItemsExactly` | src/App.jsx:59-62 | over a list of records the search keeps exactly the items whose name or category contains the query, ignoring case; an empty query keeps the list |
| `App.SearchedItems` | src/App.jsx:59-62 | definition: the name-or-category search over the selected store; its properties are `App.SearchedItemsExactly` and `App.EditSaveBreaksSearch` |
| `App.RenderCompletes` | src/App.jsx:56-62 | definition: the controller's `searchedItems` does not throw and, on the dashboard page, neither does the dashboard's search over all stores (src/components/Dashboard.jsx:31-34); the save claims of `App.AppState.Commit`, `HandleConfirmDelete` and `HandleEditSave` rest on it |
| `App.EditSave` | src/App.jsx:42-53 | edit: the edited id is deleted from the selected store, then the list is `updatedData` followed by `Without` of the old list, in order, so the old record is gone; add: `arguments[1] \|\| {}` is at the front of the store named `updatedData`; all other stores unchanged |
| `App.EditSaveBreaksSearch` | src/App.jsx:42-62 | after either path of `handleEditSave` on the selected store, that store's search throws |
| `App.AppState.constructor` | src/App.jsx:13-18 | Store A, the dashboard page, form closed, nothing edited, dialog closed, empty query |
| `App.AppState.HandleStoreChange` | src/App.jsx:21-24 | sets the selected store and switches to the inventory page |
| `App.AppState.HandleDeleteClick` | src/App.jsx:27-29 | opens the dialog with the item's id and name |
| `App.AppState.HandleConfirmDelete` | src/App.jsx:31-34 | deletes the dialog's id from the selected store (a null id deletes nothing), then the dialog is closed with null id and name; the new inventory is saved iff the render that follows completes |
| `App.AppState.HandleEditClick` | src/App.jsx:37-40 | remembers the item and opens the form |
| `App.AppState.HandleEditSave` | src/App.jsx:42-62 | the inventory becomes `EditSave` of the old one; afterwards nothing is edited and the form is closed; the new inventory is saved iff the render that follows completes, and whenever the selected store received the value it is not saved |
| `App.AppState.Commit` | src/App.jsx:56-62 | the render after a change, then the save effect: the slot takes the new inventory when the render completes, and keeps the old one when it throws |
| `App.AppState.CloseForm` | src/App.jsx:127-130 | form closed, nothing edited |
| `App.AppState.SubmitForm` | src/components/FormModal.jsx:22-28 | a refused submit changes neither inventory nor modal; an accepted one runs `handleEditSave(selectedStore)` and closes the modal, so the built product is never filed; the slot is never overwritten |
| `Dashboard.TotalProducts` | src/components/Dashboard.jsx:12 | definition: the number of values in all stores; its property is `Dashboard.TotalProductsMatchesStoreStats` |
| `Dashboard.TotalQuantity` | src/components/Dashboard.jsx:13 | definition: the NaN-absorbing unit total of all stores; its property is `Dashboard.TotalQuantityMatchesStoreStats` |
| `Dashboard.StatusCount` | src/components/Dashboard.jsx:14-16 | definition: one status count over all stores; its property is `Dashboard.StatusCountsCoverAll` |
| `Dashboard.StoreStats` | src/components/Dashboard.jsx:18-23 | definition: the per-store figures, the same as the bar chart's; its properties are the ensures of `InventoryCharts.BarChartData` and the two `...MatchesStoreStats` lemmas |
| `Dashboard.StatusCountsCoverAll` | src/components/Dashboard.jsx:12-16 | expired + low + normal = totalProducts |
| `Dashboard.TotalProductsMatchesStoreStats` | src/components/Dashboard.jsx:11-23 | totalProducts equals the sum of the per-store counts |
| `Dashboard.TotalQuantityMatchesStoreStats` | src/components/Dashboard.jsx:13-23 | totalQuantity equals the sum of the per-store quantity totals |
| `Dashboard.FilteredStoreStats` | src/components/Dashboard.jsx:26-28 | definition: the store-name filter; its properties are `FilteredStoreStatsExactly` and `EmptyQueryKeepsAllStores` |
| `Dashboard.FilteredStoreStatsExactly` | src/components/Dashboard.jsx:26-28 | exactly the stores whose name contains the query, ignoring case, are kept |
| `Dashboard.EmptyQueryKeepsAllStores` | src/components/Dashboard.jsx:26-28 | an empty query keeps every store, in key order |
| `Dashboard.SearchItems` | src/components/Dashboard.jsx:31-34 | the search has a result exactly when every value is a record (otherwise it throws) |
| `Dashboard.SearchItemsExactly` | src/components/Dashboard.jsx:31-34 | the result holds exactly the records whose name or category contains the query |
| `Dashboard.SearchItemsKeepsOrder` | src/components/Dashboard.jsx:31-34 | results keep their order: the search distributes over concatenation |
| `Dashboard.SearchEmptyQuery` | src/components/Dashboard.jsx:31-34 | an empty query keeps every record |
| `Dashboard.SearchResults` | src/components/Dashboard.jsx:31-34 | definition: the name-or-category search over all stores; its properties are the ensures of `Dashboard.SearchItems` and `Dashboard.SearchResultsExactly` |
| `Dashboard.SearchResultsExactly` | src/components/Dashboard.jsx:11-34 | the cross-store results are exactly the matching records of all stores |
| `Dashboard.DashboardView.constructor` | src/components/Dashboard.jsx:6-8 | empty query, modal closed, Store A chosen |
| `Dashboard.DashboardView.SubmitAddForm` | src/components/Dashboard.jsx:76-79 | the submit closes the modal and leaves the inventory and its saved slot unchanged |
| `DashboardStats.ComputeStats` | src/components/DashboardStats.jsx:6-9 | productCount is the length, totalItems is a number iff all values are records, expired + low <= productCount, and an empty list gives zero everywhere |
| `DashboardStats.WarningClass` | src/components/DashboardStats.jsx:29 | "warning" iff lowStockCount > 0, otherwise "" |
| `DashboardStats.DangerClass` | src/components/DashboardStats.jsx:37 | "danger" iff expiredCount > 0, otherwise "" |
| `DashboardStats.AllNormalNoHighlight` | src/components/DashboardStats.jsx:29-37 | a list of normal items raises neither highlight |
| `InventoryCharts.BarsFor` | src/components/InventoryCharts.jsx:19-24 | one bar per key, in key order, with its list length and quantity sum |
| `InventoryCharts.BarChartData` | src/components/InventoryCharts.jsx:19-24 | one bar per store key, in key order, with `products` equal to the list length |
| `InventoryCharts.BarsCountAllItems` | src/components/InventoryCharts.jsx:22-27 | the bars' product counts add up to the number of items in all stores |
| `InventoryCharts.BarsSumAllQuantities` | src/components/InventoryCharts.jsx:23-27 | the bars' quantities add up to the quantity sum of all stores |
| `InventoryCharts.AllSlices` | src/components/InventoryCharts.jsx:27-35 | three slices whose values add up to the number of items |
| `InventoryCharts.NonZeroKeepsTotal` | src/components/InventoryCharts.jsx:36 | dropping zero slices keeps the total |
| `InventoryCharts.PieSlices` | src/components/InventoryCharts.jsx:28-36 | definition: the three status slices without the empty ones; its properties are `PieSlicesShape` and `PieSlicesOrder` |
| `InventoryCharts.PieChartData` | src/components/InventoryCharts.jsx:27-36 | definition: `PieSlices` over all items of every store; its properties are those of `PieSlices` |
| `InventoryCharts.PieSlicesShape` | src/components/InventoryCharts.jsx:32-36 | at most three slices, all positive, none of the non-empty statuses missing, values adding up to the item count |
| `InventoryCharts.PieSlicesOrder` | src/components/InventoryCharts.jsx:32-36 | the kept slices are in Expired, Low Stock, Normal order |

## Left out

- `localStorage` and `JSON.parse`/`JSON.stringify`: persistence is the ghost `saved` field, and the loaded value is an optional inventory. A corrupt saved string makes `JSON.parse` throw, and there is no recovery path to model.
- `UseInventory.InventoryStore.Load`: takes the loaded inventory as a well-formed map (distinct keys). It does not model stores whose saved value is not a list.
- Clock and date parsing (`new Date()`, `Date.now()`, `toISOString`): dates are UTC day numbers and the current instant is an injected millisecond count. All seeded records share one `today`, although the generator reads the clock once per record.
- `App.RenderCompletes`: counts only the controller's and the dashboard's searches as ways a render can throw. The other components read fields of a value that is not a record without throwing. A render that throws also unmounts the application, which the model does not capture: its state stays the computed one.
- `Math.random` and the fractional ids `Date.now() + Math.random() * 10000`: each draw is an input within its range. No uniqueness of ids is claimed, since the code does not guarantee it.
- `Strings.LexCompare`: stands for `localeCompare` as plain code-point order, not locale collation. `Strings.Lower` folds ASCII letters only.
- Quantities are integers: `Number(...)` producing `NaN` or a fraction is not modelled. `AddProductForm.BuildRecord` takes the conversion as a parameter returning an integer.
- `InventoryFilter`: the panel is modelled on product records only, because `src/App.jsx` does not render it. The `useEffect` that resets the filters when `items.length` changes is React scheduling and is left out.
- React scheduling in general (`setState` batching, effect timing): each handler's updates apply in program order, and `onFilter`'s receipt is the `delivered` field.
- The value of `arguments[1]` inside `handleEditSave` is opaque (`ArgumentValue`). Like `{}`, it carries no `id`, `name` or `quantity`.
- JSX rendering, CSS classes other than the two stat highlights, Recharts, the theme context, and the forwarding-only components (`Sidebar.jsx`, `StoreSelectionSidebar.jsx`, `StoreSelector.jsx`, `InventoryList.jsx`, `ConfirmDialog.jsx`). `FormModal.jsx` appears only through `App.AppState.SubmitForm`.
- CSV export, an in-place update operation and `store` backfill on load do not exist in this code, so they are not modelled.
