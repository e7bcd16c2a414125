/** The filter panel: its four controls (search text, type, category,
    period), the query each change emits, the category list offered for
    the chosen type and when the clear button shows. */
module FinancialFilters {
  import opened Types
  import opened FinancialService

  /** The calendar's selection: a start and an end, each possibly unset. */
  datatype DateRange = DateRange(from: Option<int>, to: Option<int>)

  /** The query the controls stand for (the object `applyFilters` emits):
      'all' is no filter, an empty search text is no search, and the
      period's ends become the date bounds. */
  function PanelFilters(t: Option<ItemType>, c: Option<Category>, search: string, range: Option<DateRange>): (f: Filters)
    ensures f.search.Some? <==> search != ""
  {
    Filters(
      t,
      c,
      if range.Some? then range.value.from else None,
      if range.Some? then range.value.to else None,
      if search == "" then None else Some(search))
  }

  /** The items the emitted query selects are exactly the stored items of
      the chosen type and category, dated inside the chosen period and
      found by the search text. */
  lemma PanelSelects(t: Option<ItemType>, c: Option<Category>, search: string, range: Option<DateRange>,
                     items: seq<FinancialItem>, x: FinancialItem)
    ensures x in Select(PanelFilters(t, c, search, range), items) <==>
      && x in items
      && (t.Some? ==> x.itemType == t.value)
      && (c.Some? ==> x.category == c.value)
      && (range.Some? && range.value.from.Some? ==> x.date >= range.value.from.value)
      && (range.Some? && range.value.to.Some? ==> x.date <= range.value.to.value)
      && (search != "" ==> SearchMatches(x, search))
  {
    SelectSoundComplete(PanelFilters(t, c, search, range), items, x);
  }

  /** The categories offered: those of the chosen type, or both lists,
      incomes first, when no type is chosen. */
  function CategoryOptions(t: Option<ItemType>): (options: seq<Category>)
    ensures NoDuplicates(options)
    ensures |options| == if t == Some(Income) then 4 else if t == Some(Expense) then 9 else 13
  {
    CategoryListsPartition();
    if t == Some(Income) then IncomeCategories
    else if t == Some(Expense) then ExpenseCategories
    else IncomeCategories + ExpenseCategories
  }

  /** Each category is offered at most once; a chosen type offers exactly
      its own categories, and no type offers every category. */
  lemma CategoryOptionsCover(t: Option<ItemType>, c: Category)
    ensures NoDuplicates(CategoryOptions(t))
    ensures t.Some? ==> (c in CategoryOptions(t) <==> c in CategoriesOf(t.value))
    ensures t.None? ==> c in CategoryOptions(t)
    ensures t.Some? ==> (c in CategoryOptions(t) <==> c !in CategoriesOf(if t.value == Income then Expense else Income))
  {
    CategoryListsPartition();
  }

  /** The clear button shows when a type, a category, a search text or a
      period (even an empty one) is set. With the button hidden the
      controls emit no filter at all; without a period, emitting no filter
      is also enough to hide it. */
  function ClearButtonShown(t: Option<ItemType>, c: Option<Category>, search: string, range: Option<DateRange>): (shown: bool)
    ensures !shown ==> PanelFilters(t, c, search, range) == NoFilters
    ensures range.None? && PanelFilters(t, c, search, range) == NoFilters ==> !shown
  {
    t.Some? || c.Some? || search != "" || range.Some?
  }

  /** The period handler as written: the new selection is stored, and once
      both its ends are set the query emitted is built by the
      `applyFilters` of the render that made the handler, which still holds
      the previous period. */
  function RangeEmissionAsWritten(t: Option<ItemType>, c: Option<Category>, search: string,
                                  previous: Option<DateRange>, selected: Option<DateRange>): (emitted: Option<Filters>)
    ensures emitted.Some? <==> selected.Some? && selected.value.from.Some? && selected.value.to.Some?
    ensures emitted.Some? ==>
      && emitted.value.startDate == (if previous.Some? then previous.value.from else None)
      && emitted.value.endDate == (if previous.Some? then previous.value.to else None)
  {
    if selected.Some? && selected.value.from.Some? && selected.value.to.Some?
    then Some(PanelFilters(t, c, search, previous))
    else None
  }

  /** Picking the end of a period whose start was picked first emits a
      query with no end date: items after the period stay listed. */
  lemma StaleRangeEmitted()
    ensures var emitted := RangeEmissionAsWritten(None, None, "", Some(DateRange(Some(1), None)), Some(DateRange(Some(1), Some(2))));
      emitted.Some? && emitted.value.endDate == None
    ensures var emitted := RangeEmissionAsWritten(None, None, "", None, Some(DateRange(Some(1), Some(2))));
      emitted.Some? && emitted.value.startDate == None && emitted.value.endDate == None
  {
  }

  /** The period handler as intended: once both ends are set, the query
      carries the selected period and the other controls. */
  function RangeEmission(t: Option<ItemType>, c: Option<Category>, search: string,
                         selected: Option<DateRange>): (r: Option<Filters>)
    ensures r.Some? <==> selected.Some? && selected.value.from.Some? && selected.value.to.Some?
    ensures r.Some? ==> r.value.startDate == selected.value.from && r.value.endDate == selected.value.to
    ensures r.Some? ==> r.value.itemType == t && r.value.category == c
  {
    if selected.Some? && selected.value.from.Some? && selected.value.to.Some?
    then Some(PanelFilters(t, c, search, selected))
    else None
  }

  /** The intended emission selects only items inside the selected period. */
  lemma RangeEmissionSelects(t: Option<ItemType>, c: Option<Category>, search: string, from: int, to: int,
                             items: seq<FinancialItem>, x: FinancialItem)
    ensures var r := RangeEmission(t, c, search, Some(DateRange(Some(from), Some(to))));
      r.Some? && (x in Select(r.value, items) ==> from <= x.date <= to)
  {
    PanelSelects(t, c, search, Some(DateRange(Some(from), Some(to))), items, x);
  }

  /** The panel's state: `type`, `category`, `search` and `dateRange`, with
      'all' as None. */
  class FilterPanel {
    var typeChoice: Option<ItemType>
    var categoryChoice: Option<Category>
    var search: string
    var dateRange: Option<DateRange>

    constructor ()
      ensures typeChoice == None && categoryChoice == None && search == "" && dateRange == None
      ensures Current() == NoFilters && !ShowClear()
    {
      typeChoice := None;
      categoryChoice := None;
      search := "";
      dateRange := None;
    }

    /** The query the controls currently stand for. */
    function Current(): Filters
      reads this
    {
      PanelFilters(typeChoice, categoryChoice, search, dateRange)
    }

    function ShowClear(): bool
      reads this
    {
      ClearButtonShown(typeChoice, categoryChoice, search, dateRange)
    }

    /** Typing changes the text and emits nothing. */
    method OnSearchChange(text: string)
      modifies this
      ensures search == text
      ensures typeChoice == old(typeChoice) && categoryChoice == old(categoryChoice) && dateRange == old(dateRange)
    {
      search := text;
    }

    /** Leaving the search box or pressing Enter emits the current query. */
    method OnSearchCommit() returns (emitted: Filters)
      ensures emitted == Current()
      ensures emitted.search.Some? <==> search != ""
    {
      emitted := Current();
    }

    /** Choosing a type resets the category to 'all' and emits the query
      for the new type, with no category. */
    method OnTypeChange(choice: Option<ItemType>) returns (emitted: Filters)
      modifies this
      ensures typeChoice == choice && categoryChoice == None
      ensures search == old(search) && dateRange == old(dateRange)
      ensures emitted == Current()
      ensures emitted.itemType == choice && emitted.category == None
    {
      typeChoice := choice;
      categoryChoice := None;
      emitted := PanelFilters(choice, None, search, dateRange);
    }

    /** Choosing a category keeps the type and emits the query with both. */
    method OnCategoryChange(choice: Option<Category>) returns (emitted: Filters)
      modifies this
      ensures categoryChoice == choice
      ensures typeChoice == old(typeChoice) && search == old(search) && dateRange == old(dateRange)
      ensures emitted == Current()
      ensures emitted.itemType == typeChoice && emitted.category == choice
    {
      categoryChoice := choice;
      emitted := PanelFilters(typeChoice, choice, search, dateRange);
    }

    /** Selecting a period stores it and, once both ends are set, emits
      the query that `applyFilters` builds from the controls as they were
      before the selection. */
    method OnRangeSelect(selected: Option<DateRange>) returns (emitted: Option<Filters>)
      modifies this
      ensures dateRange == selected
      ensures typeChoice == old(typeChoice) && categoryChoice == old(categoryChoice) && search == old(search)
      ensures emitted == RangeEmissionAsWritten(typeChoice, categoryChoice, search, old(dateRange), selected)
      ensures emitted.Some? <==> selected.Some? && selected.value.from.Some? && selected.value.to.Some?
    {
      var previous := dateRange;
      dateRange := selected;
      emitted := RangeEmissionAsWritten(typeChoice, categoryChoice, search, previous, selected);
    }

    /** `handleClearFilters`: every control back to its default, the
      empty query emitted, and the clear button gone. */
    method ClearFilters() returns (emitted: Filters)
      modifies this
      ensures typeChoice == None && categoryChoice == None && search == "" && dateRange == None
      ensures emitted == NoFilters && emitted == Current()
      ensures !ShowClear()
    {
      typeChoice := None;
      categoryChoice := None;
      search := "";
      dateRange := None;
      emitted := NoFilters;
    }
  }
}
