/** The `useFinancialItems` hook: the list shown on the dashboard, the
    loading and error flags, the filters in force, the actions that go
    through the service and reload, and the income/expense split. */
module FinancialItemsHook {
  import opened Types
  import opened Seqs
  import opened FinancialService

  /** `items.filter(item => item.type === 'income')`. */
  function Incomes(items: seq<FinancialItem>): (incomes: seq<FinancialItem>)
    ensures forall x :: x in incomes <==> x in items && x.itemType == Income
  {
    Filter(TypeIs(Income), items)
  }

  /** `items.filter(item => item.type === 'expense')`. */
  function Expenses(items: seq<FinancialItem>): (expenses: seq<FinancialItem>)
    ensures forall x :: x in expenses <==> x in items && x.itemType == Expense
  {
    Filter(TypeIs(Expense), items)
  }

  /** The split is exact: an item is an income exactly when it is listed
      with type income, an expense likewise; as the type has two values,
      every item lands in exactly one of the lists, as often as it occurs,
      and each list keeps the items' order. */
  lemma {:induction false} SplitByType(items: seq<FinancialItem>, more: seq<FinancialItem>, x: FinancialItem)
    ensures x in Incomes(items) <==> x in items && x.itemType == Income
    ensures x in Expenses(items) <==> x in items && x.itemType == Expense
    ensures !(x in Incomes(items) && x in Expenses(items))
    ensures |Incomes(items)| + |Expenses(items)| == |items|
    ensures multiset(Incomes(items)) + multiset(Expenses(items)) == multiset(items)
    ensures Incomes(items + more) == Incomes(items) + Incomes(more)
    ensures Expenses(items + more) == Expenses(items) + Expenses(more)
  {
    assert forall y :: TypeIs(Expense)(y) == !TypeIs(Income)(y);
    FilterSplit(TypeIs(Income), TypeIs(Expense), items);
    FilterConcat(TypeIs(Income), items, more);
    FilterConcat(TypeIs(Expense), items, more);
  }

  /** The hook's state. `loading` is true until the first load settles;
      `error` holds the message of the last failed load. */
  class ItemsState {
    var items: seq<FinancialItem>
    var loading: bool
    var error: Option<string>
    var filters: Filters

    /** `useState([])`, `useState(true)`, `useState(null)` and
        `useState(initialFilters || {})`. */
    constructor (initialFilters: Option<Filters>)
      ensures items == [] && loading && error == None
      ensures filters == if initialFilters.Some? then initialFilters.value else NoFilters
    {
      items := [];
      loading := true;
      error := None;
      filters := if initialFilters.Some? then initialFilters.value else NoFilters;
    }

    /** The list a load with these filters must show: the selected stored
        items, newest first. */
    ghost predicate Shows(store: LocalStore, f: Filters)
      reads this, store
    {
      && multiset(items) == multiset(Select(f, store.GetItems()))
      && forall i, j :: 0 <= i < j < |items| ==> items[i].date >= items[j].date
    }

    /** `loadItems(currentFilters?)`: fetch with the given filters, or else
        with the stored ones, and replace the list wholesale. The local
        `getAll` does not throw, so the error is cleared and stays so. */
    method LoadItems(store: LocalStore, currentFilters: Option<Filters>)
      modifies this
      ensures filters == old(filters)
      ensures Shows(store, if currentFilters.Some? then currentFilters.value else old(filters))
      ensures !loading && error == None
    {
      loading := true;
      error := None;
      var filtersToUse := if currentFilters.Some? then currentFilters.value else filters;
      var data := store.GetAll(filtersToUse);
      items := data;
      loading := false;
    }

    /** `updateFilters(newFilters)`: store the filters and load with them,
        not with the ones they replace. */
    method UpdateFilters(store: LocalStore, newFilters: Filters)
      modifies this
      ensures filters == newFilters
      ensures Shows(store, newFilters)
      ensures !loading && error == None
    {
      filters := newFilters;
      LoadItems(store, Some(newFilters));
    }

    /** `refresh()`: load again with the stored filters. */
    method Refresh(store: LocalStore)
      modifies this
      ensures filters == old(filters)
      ensures Shows(store, filters)
      ensures !loading && error == None
    {
      LoadItems(store, Some(filters));
    }

    /** `addItem`: create through the service, then reload with the stored
        filters. When the service throws the error is passed on and the
        list is not reloaded. */
    method AddItem(store: LocalStore, draft: ItemDraft, now: int, freshId: string, writable: bool)
      returns (r: Result<FinancialItem>)
      requires store.Valid()
      requires forall x :: x in store.GetItems() ==> x.id != freshId
      modifies this, store
      ensures filters == old(filters)
      ensures r.Ok? <==> (!store.inBrowser || writable)
      ensures r.Ok? ==> r.value == Stamp(draft, freshId, now) && Shows(store, filters)
      ensures r.Ok? && store.inBrowser ==>
        store.GetItems() == old(store.GetItems()) + [Stamp(draft, freshId, now)]
      ensures r.Err? ==> items == old(items) && store.slot == old(store.slot)
    {
      r := store.Create(draft, now, freshId, writable);
      if r.Err? {
        return;
      }
      LoadItems(store, Some(filters));
    }

    /** `updateItem`: update through the service, then reload; on a thrown
        error the list stays as it was. */
    method UpdateItem(store: LocalStore, id: string, patch: Patch, now: int, writable: bool)
      returns (r: Result<()>)
      requires store.Valid()
      modifies this, store
      ensures filters == old(filters)
      ensures var before := old(store.GetItems()); var k := FirstIndex(before, id);
        && (r.Ok? <==> (k < 0 || writable))
        && (k >= 0 && writable ==> store.GetItems() == before[k := Merge(before[k], patch, now)])
        && (k < 0 ==> store.slot == old(store.slot))
      ensures r.Ok? ==> Shows(store, filters)
      ensures r.Err? ==> items == old(items) && store.slot == old(store.slot)
    {
      r := store.Update(id, patch, now, writable);
      if r.Err? {
        return;
      }
      LoadItems(store, Some(filters));
    }

    /** `deleteItem`: delete through the service, then reload; on a thrown
        error the list stays as it was. */
    method DeleteItem(store: LocalStore, id: string, writable: bool) returns (r: Result<()>)
      requires store.Valid()
      modifies this, store
      ensures filters == old(filters)
      ensures r.Ok? <==> (!store.inBrowser || writable)
      ensures r.Ok? && store.inBrowser ==> store.GetItems() == WithoutId(old(store.GetItems()), id)
      ensures r.Ok? ==> Shows(store, filters)
      ensures r.Err? ==> items == old(items) && store.slot == old(store.slot)
    {
      r := store.Delete(id, writable);
      if r.Err? {
        return;
      }
      LoadItems(store, Some(filters));
    }
  }
}
