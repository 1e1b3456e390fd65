/**
 * The controller: which store and page are shown, the delete confirmation,
 * the edit and add path through `handleEditSave`, and the per-store list
 * with its search.
 *
 * `handleEditSave` reads only its first parameter. The form modal calls it
 * as `onAdd(store, product)`, so the value filed is that first argument, the
 * store name, on the edit path, and `arguments[1] || {}` on the add path.
 * Inside an arrow function `arguments` is the component's own argument
 * list, so that value is not the product either. Both are modelled as
 * written: the product the form built never reaches the inventory.
 */
module App {
  import opened Strings
  import opened Seqs
  import opened UseInventory
  import opened AddProductForm
  import opened Dashboard

  datatype Page = DashboardPage | InventoryPage

  /** `deleteConfirm`: whether the dialog is open, and the id and name it was opened for. */
  datatype DeleteConfirm = DeleteConfirm(isOpen: bool, itemId: Option<Id>, itemName: Option<string>)

  /** `{ isOpen: false, itemId: null, itemName: null }`. */
  const ClosedDialog: DeleteConfirm := DeleteConfirm(false, None, None)

  /** `inventory[selectedStore] || []`: the selected store's list, or nothing for an unknown key. */
  function FilteredItems(inv: Inventory, selected: string): (r: seq<Item>)
    requires inv.Valid()
    ensures selected in inv.keys ==> r == inv.lists[selected]
    ensures selected !in inv.keys ==> r == []
  {
    if selected in inv.lists then inv.lists[selected] else []
  }

  /** `searchedItems`: the name-or-category search over the selected store's list. */
  function SearchedItems(inv: Inventory, selected: string, query: string): Option<seq<Item>>
    requires inv.Valid()
  {
    SearchItems(FilteredItems(inv, selected), query)
  }

  /**
   * When the selected store holds only records, the search keeps exactly the
   * matching ones, in order, and an empty query keeps the whole list.
   */
  lemma SearchedItemsExactly(inv: Inventory, selected: string, query: string)
    requires inv.Valid()
    requires forall x :: x in FilteredItems(inv, selected) ==> x.Record?
    ensures SearchedItems(inv, selected, query).Some?
    ensures forall x :: x in SearchedItems(inv, selected, query).value <==>
              x in FilteredItems(inv, selected) && MatchesNameOrCategory(x.product, query)
    ensures query == "" ==> SearchedItems(inv, selected, query).value == FilteredItems(inv, selected)
  {
    SearchItemsExactly(FilteredItems(inv, selected), query);
    if query == "" {
      SearchEmptyQuery(FilteredItems(inv, selected));
    }
  }

  /**
   * The inventory after `handleEditSave(updatedData)`. Editing deletes the
   * edited id from the selected store and then files `updatedData` at the
   * front of that same store; adding files `arguments[1] || {}` at the front
   * of the store named `updatedData`. Every other store is left as it was.
   */
  function EditSave(inv: Inventory, editing: Option<Product>, selected: string, updatedData: string): (r: Inventory)
    requires inv.Valid()
    requires editing.Some? ==> selected in inv.lists
    requires editing.None? ==> updatedData in inv.lists
    ensures r.Valid() && r.keys == inv.keys && r.lists.Keys == inv.lists.Keys
    ensures editing.Some? ==>
              && |r.lists[selected]| > 0
              && r.lists[selected][0] == StringValue(updatedData)
              && r.lists[selected] == [StringValue(updatedData)] + Without(inv.lists[selected], editing.value.id)
              && (forall x :: x in r.lists[selected][1..] <==> x in inv.lists[selected] && ItemId(x) != Some(editing.value.id))
              && Record(editing.value) !in r.lists[selected]
              && (forall k :: k in r.lists && k != selected ==> r.lists[k] == inv.lists[k])
    ensures editing.None? ==>
              && r.lists[updatedData] == [ArgumentValue] + inv.lists[updatedData]
              && (forall k :: k in r.lists && k != updatedData ==> r.lists[k] == inv.lists[k])
  {
    if editing.Some? then
      var deleted := DeleteFrom(inv, selected, editing.value.id);
      var r := AddTo(deleted, selected, StringValue(updatedData));
      assert r.lists[selected][1..] == deleted.lists[selected];
      r
    else
      AddTo(inv, updatedData, ArgumentValue)
  }

  /**
   * Whichever path `handleEditSave` took for the selected store, that store
   * now holds a value that is not a record, so `searchedItems`, which the
   * controller computes on every render whatever the page and which reads
   * `item.name` of every value, throws.
   */
  lemma EditSaveBreaksSearch(inv: Inventory, editing: Option<Product>, selected: string, updatedData: string, query: string)
    requires inv.Valid() && selected in inv.lists
    requires editing.None? ==> updatedData == selected
    ensures SearchedItems(EditSave(inv, editing, selected, updatedData), selected, query) == None
  {
    var r := EditSave(inv, editing, selected, updatedData);
    assert r.lists[selected][0] in FilteredItems(r, selected);
  }

  /**
   * Whether a render of the controller gets through: its own `searchedItems`
   * over the selected store, and on the dashboard page the dashboard's
   * search over every store, which reads `item.name` of every value whatever
   * its query. A render that throws is never committed, so the effects that
   * follow it, the save among them, do not run.
   */
  predicate RenderCompletes(inv: Inventory, selected: string, query: string, page: Page)
    requires inv.Valid()
  {
    && SearchedItems(inv, selected, query).Some?
    && (page == DashboardPage ==> SearchResults(inv, "").Some?)
  }

  /** The controller's state. */
  class AppState {
    const store: InventoryStore
    var selectedStore: string
    var currentPage: Page
    var isFormOpen: bool
    var editingItem: Option<Product>
    var deleteConfirm: DeleteConfirm
    var searchQuery: string

    constructor (store: InventoryStore)
      ensures this.store == store
      ensures selectedStore == "Store A" && currentPage == DashboardPage
      ensures !isFormOpen && editingItem == None && deleteConfirm == ClosedDialog && searchQuery == ""
    {
      this.store := store;
      selectedStore := "Store A";
      currentPage := DashboardPage;
      isFormOpen := false;
      editingItem := None;
      deleteConfirm := ClosedDialog;
      searchQuery := "";
    }

    /**
     * The render that follows a change of the inventory, then the save
     * effect: the slot takes the new inventory when the render completes and
     * keeps the old one when it throws.
     */
    method Commit()
      requires store.Valid()
      modifies store`saved
      ensures store.Valid()
      ensures RenderCompletes(store.inventory, selectedStore, searchQuery, currentPage) ==> store.saved == store.inventory
      ensures !RenderCompletes(store.inventory, selectedStore, searchQuery, currentPage) ==> store.saved == old(store.saved)
    {
      if RenderCompletes(store.inventory, selectedStore, searchQuery, currentPage) {
        store.Save();
      }
    }

    /** `handleStoreChange`: show the chosen store on the inventory page. */
    method HandleStoreChange(s: string)
      modifies this`selectedStore, this`currentPage
      ensures selectedStore == s && currentPage == InventoryPage
    {
      selectedStore := s;
      currentPage := InventoryPage;
    }

    /** `handleDeleteClick`: open the dialog for one item. */
    method HandleDeleteClick(itemId: Id, itemName: string)
      modifies this`deleteConfirm
      ensures deleteConfirm == DeleteConfirm(true, Some(itemId), Some(itemName))
    {
      deleteConfirm := DeleteConfirm(true, Some(itemId), Some(itemName));
    }

    /**
     * `handleConfirmDelete`: delete the dialog's id from the selected store,
     * then close the dialog. With no id (null) the filter keeps every value,
     * since no value carries a null id, and the lists stay as they were. The
     * new inventory is saved once the render that follows completes.
     */
    method HandleConfirmDelete()
      requires store.Valid() && selectedStore in store.inventory.lists
      modifies this`deleteConfirm, store
      ensures store.Valid()
      ensures old(deleteConfirm).itemId.Some? ==>
                store.inventory == DeleteFrom(old(store.inventory), selectedStore, old(deleteConfirm).itemId.value)
      ensures old(deleteConfirm).itemId.None? ==> store.inventory == old(store.inventory)
      ensures deleteConfirm == ClosedDialog
      ensures RenderCompletes(store.inventory, selectedStore, searchQuery, currentPage) ==> store.saved == store.inventory
      ensures !RenderCompletes(store.inventory, selectedStore, searchQuery, currentPage) ==> store.saved == old(store.saved)
    {
      if deleteConfirm.itemId.Some? {
        store.DeleteProduct(selectedStore, deleteConfirm.itemId.value);
      }
      deleteConfirm := ClosedDialog;
      Commit();
    }

    /** `handleEditClick`: remember the item and open the form. */
    method HandleEditClick(item: Product)
      modifies this`editingItem, this`isFormOpen
      ensures editingItem == Some(item) && isFormOpen
    {
      editingItem := Some(item);
      isFormOpen := true;
    }

    /**
     * `handleEditSave(updatedData)`, then the form closes and nothing is being
     * edited. The state it computes is what the next render reads; when that
     * render throws, which it does whenever the selected store received the
     * value, the slot keeps the previous inventory.
     */
    method HandleEditSave(updatedData: string)
      requires store.Valid()
      requires editingItem.Some? ==> selectedStore in store.inventory.lists
      requires editingItem.None? ==> updatedData in store.inventory.lists
      modifies this`editingItem, this`isFormOpen, store
      ensures store.Valid()
      ensures store.inventory == EditSave(old(store.inventory), old(editingItem), selectedStore, updatedData)
      ensures editingItem == None && !isFormOpen
      ensures RenderCompletes(store.inventory, selectedStore, searchQuery, currentPage) ==> store.saved == store.inventory
      ensures !RenderCompletes(store.inventory, selectedStore, searchQuery, currentPage) ==> store.saved == old(store.saved)
      ensures old(editingItem).Some? || updatedData == selectedStore ==> store.saved == old(store.saved)
    {
      ghost var before := store.inventory;
      ghost var editing := editingItem;
      if editingItem.Some? {
        store.DeleteProduct(selectedStore, editingItem.value.id);
        store.AddProduct(selectedStore, StringValue(updatedData));
      } else {
        store.AddProduct(updatedData, ArgumentValue);
      }
      editingItem := None;
      isFormOpen := false;
      if editing.Some? || updatedData == selectedStore {
        EditSaveBreaksSearch(before, editing, selectedStore, updatedData, searchQuery);
      }
      Commit();
    }

    /** The modal's `onClose`. */
    method CloseForm()
      modifies this`isFormOpen, this`editingItem
      ensures !isFormOpen && editingItem == None
    {
      isFormOpen := false;
      editingItem := None;
    }

    /**
     * A submit of the add form inside the modal: the form validates and, when
     * it calls `onAdd(selectedStore, product)`, the modal forwards that call
     * to `handleEditSave` and closes. The product is dropped on the way: the
     * selected store receives its own name (editing) or the extra argument
     * value (adding). The render of that state throws, so nothing is saved.
     */
    method SubmitForm(form: Form, clock: Id, number: string -> int, date: string -> Day)
      requires store.Valid() && selectedStore in store.inventory.lists
      modifies form, this`editingItem, this`isFormOpen, store
      ensures store.Valid()
      ensures var out := Submit(old(form.formData), selectedStore, clock, number, date);
        && form.formData == out.formData && form.error == out.error
        && (out.sent.Some? ==>
              && store.inventory == EditSave(old(store.inventory), old(editingItem), selectedStore, selectedStore)
              && !isFormOpen && editingItem == None)
        && store.saved == old(store.saved)
        && (out.sent.None? ==>
              && store.inventory == old(store.inventory)
              && isFormOpen == old(isFormOpen) && editingItem == old(editingItem))
    {
      var sent := form.HandleSubmit(selectedStore, clock, number, date);
      if sent.Some? {
        HandleEditSave(sent.value.store);
        CloseForm();
      }
    }
  }
}
