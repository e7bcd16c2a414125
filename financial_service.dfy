/** `financialService` with its localStorage fallback: the whole item list
    lives, JSON-encoded, in one storage slot under the key 'financialItems'.
    Also the filter semantics every read applies, the case-insensitive
    search, and the backend selector `isFirebaseConfigured`. */
module FinancialService {
  import opened Types
  import opened Seqs
  import opened Sorting

  // ---------------------------------------------------------------------
  // Backend selector

  /** `isFirebaseConfigured`: the Firebase API key is present, non-empty
      and not the placeholder 'demo-key'. Every operation of the service
      consults it and takes the local branch when it is false, which
      happens exactly when the key is absent, empty or the placeholder. */
  predicate IsFirebaseConfigured(apiKey: Option<string>): (configured: bool)
    ensures !configured <==> apiKey == None || apiKey == Some("") || apiKey == Some("demo-key")
  {
    apiKey.Some? && apiKey.value != "" && apiKey.value != "demo-key"
  }

  // ---------------------------------------------------------------------
  // Filters and search

  /** The optional filters of `getAll`; an absent field imposes nothing. */
  datatype Filters = Filters(
    itemType: Option<ItemType>,
    category: Option<Category>,
    startDate: Option<int>,
    endDate: Option<int>,
    search: Option<string>)

  const NoFilters: Filters := Filters(None, None, None, None, None)

  /** `toLowerCase` on one character: the ASCII capitals and the Latin-1
      capitals U+00C0 to U+00DE (except the multiplication sign U+00D7)
      move 32 code points down; every other character is left alone. */
  function LowerChar(c: char): char {
    if 'A' <= c <= 'Z' || ('À' <= c <= 'Þ' && c != '×') then (c as int + 32) as char
    else c
  }

  function Lower(s: string): (r: string)
    ensures |r| == |s|
  {
    seq(|s|, i requires 0 <= i < |s| => LowerChar(s[i]))
  }

  /** `hay.includes(needle)`: needle occurs in hay as a contiguous block. */
  predicate Includes(hay: string, needle: string): (found: bool)
    ensures needle == "" ==> found
  {
    assert needle <= hay[0..] <== needle == "";
    exists i :: 0 <= i <= |hay| && needle <= hay[i..]
  }

  /** The search predicate of `getAll`: the lowered term occurs in the
      lowered name, in the lowered description when there is one, or in
      some lowered tag. */
  predicate SearchMatches(x: FinancialItem, term: string): (found: bool)
    ensures term == "" ==> found
    ensures Includes(Lower(x.name), Lower(term)) ==> found
  {
    var q := Lower(term);
    || Includes(Lower(x.name), q)
    || (x.description.Some? && Includes(Lower(x.description.value), q))
    || (x.tags.Some? && exists t :: t in x.tags.value && Includes(Lower(t), q))
  }

  /** All present filters hold of the item (an empty search imposes nothing,
      as '' is falsy in the source's test). The range is inclusive. */
  predicate Matches(f: Filters, x: FinancialItem): (passes: bool)
    ensures f == NoFilters ==> passes
    ensures passes ==> f.itemType.Some? ==> x.itemType == f.itemType.value
  {
    && (f.itemType.Some? ==> x.itemType == f.itemType.value)
    && (f.category.Some? ==> x.category == f.category.value)
    && (f.startDate.Some? ==> x.date >= f.startDate.value)
    && (f.endDate.Some? ==> x.date <= f.endDate.value)
    && (f.search.Some? && f.search.value != "" ==> SearchMatches(x, f.search.value))
  }

  /** The stored items a query selects, in stored order. */
  function Select(f: Filters, items: seq<FinancialItem>): (selected: seq<FinancialItem>)
    ensures |selected| <= |items|
    ensures forall x :: x in selected <==> x in items && Matches(f, x)
  {
    Filter(MatchesAll(f), items)
  }

  function MatchesAll(f: Filters): FinancialItem -> bool {
    (x: FinancialItem) => Matches(f, x)
  }

  /** The query is sound and complete: an item is selected exactly when it
      is stored and passes every filter, as often as it is stored. */
  lemma SelectSoundComplete(f: Filters, items: seq<FinancialItem>, x: FinancialItem)
    ensures x in Select(f, items) <==> x in items && Matches(f, x)
    ensures multiset(Select(f, items))[x] == if Matches(f, x) then multiset(items)[x] else 0
  {
    FilterCount(MatchesAll(f), items, x);
  }

  /** Without filters (or with an empty search only) every item is selected. */
  lemma {:induction false} NoFiltersSelectAll(items: seq<FinancialItem>, search: Option<string>)
    requires search == None || search == Some("")
    ensures Select(NoFilters.(search := search), items) == items
  {
    FilterKeepsAll(MatchesAll(NoFilters.(search := search)), items);
  }

  /** An item with neither description nor tags is found by a search
      exactly when its name contains the term, case-insensitively. */
  lemma NameOnlySearch(x: FinancialItem, term: string)
    requires x.description.None? && x.tags.None?
    ensures SearchMatches(x, term) <==> Includes(Lower(x.name), Lower(term))
  {
  }

  /** Search is case-insensitive, accented capitals included: "SALÁ" finds
      an item named "Salário"; "ALU" does not, as "salário" has no "alu". */
  lemma SearchIgnoresCase(x: FinancialItem)
    requires x.name == "Salário" && x.description.None? && x.tags.None?
    ensures SearchMatches(x, "SALÁ")
    ensures !SearchMatches(x, "ALU")
  {
    var h := Lower(x.name);
    assert h == "salário" by {
      assert h[0] == 's' && h[1] == 'a' && h[2] == 'l' && h[3] == 'á';
      assert h[4] == 'r' && h[5] == 'i' && h[6] == 'o';
    }
    var q := Lower("SALÁ");
    assert q == "salá" by {
      assert q[0] == 's' && q[1] == 'a' && q[2] == 'l' && q[3] == 'á';
    }
    assert q <= h[0..];
    var u := Lower("ALU");
    assert u == "alu" by {
      assert u[0] == 'a' && u[1] == 'l' && u[2] == 'u';
    }
    forall i | 0 <= i <= |h| ensures !(u <= h[i..]) {
      if i <= 4 {
        assert h[i..][..3] != u by {
          assert i == 1 ==> h[3] != u[2];
        }
      }
    }
  }

  // ---------------------------------------------------------------------
  // Lookup by id

  /** `findIndex(i => i.id === id)`: the first position holding the id, or -1. */
  function FirstIndex(items: seq<FinancialItem>, id: string): (k: int)
    ensures -1 <= k < |items|
    ensures k >= 0 ==> items[k].id == id && forall j :: 0 <= j < k ==> items[j].id != id
    ensures k == -1 <==> forall j :: 0 <= j < |items| ==> items[j].id != id
  {
    if items == [] then -1
    else if items[0].id == id then 0
    else
      var k := FirstIndex(items[1..], id);
      if k < 0 then -1 else k + 1
  }

  /** The linear scan of `findIndex` and `find`. */
  method FindIndex(items: seq<FinancialItem>, id: string) returns (k: int)
    ensures k == FirstIndex(items, id)
  {
    k := 0;
    while k < |items| && items[k].id != id
      invariant 0 <= k <= |items|
      invariant forall j :: 0 <= j < k ==> items[j].id != id
    {
      k := k + 1;
    }
    if k == |items| {
      k := -1;
    }
  }

  // ---------------------------------------------------------------------
  // Updates and deletion on item lists

  /** `Partial<FinancialItem>` as `update` receives it. A required field is
      either absent (None) or given; an optional field is absent (None),
      given (Some(Some(v))) or explicitly undefined (Some(None)), which
      object spread copies too and so clears the field. */
  datatype Patch = Patch(
    id: Option<string>,
    name: Option<string>,
    amount: Option<int>,
    itemType: Option<ItemType>,
    category: Option<Category>,
    date: Option<int>,
    description: Option<Option<string>>,
    tags: Option<Option<seq<string>>>,
    recurrence: Option<Option<Recurrence>>,
    userId: Option<Option<string>>,
    createdAt: Option<int>)

  const EmptyPatch: Patch := Patch(None, None, None, None, None, None, None, None, None, None, None)

  function Override<T>(current: T, given: Option<T>): T {
    if given.Some? then given.value else current
  }

  /** `{ ...item, ...patch, updatedAt: now }`. */
  function Merge(x: FinancialItem, p: Patch, now: int): (y: FinancialItem)
    ensures y.updatedAt == now
  {
    Record(
      Override(x.id, p.id), Override(x.name, p.name), Override(x.amount, p.amount),
      Override(x.itemType, p.itemType), Override(x.category, p.category), Override(x.date, p.date),
      Override(x.description, p.description), Override(x.tags, p.tags),
      Override(x.recurrence, p.recurrence), Override(x.userId, p.userId),
      Override(x.createdAt, p.createdAt), now)
  }

  /** What a merge keeps and what it overwrites: a field the patch names
      takes the patch's value, every other field keeps the item's. */
  lemma MergeFields(x: FinancialItem, p: Patch, now: int)
    ensures p.id.None? ==> Merge(x, p, now).id == x.id
    ensures p.name.None? ==> Merge(x, p, now).name == x.name
    ensures p.amount.None? ==> Merge(x, p, now).amount == x.amount
    ensures p.itemType.None? ==> Merge(x, p, now).itemType == x.itemType
    ensures p.category.None? ==> Merge(x, p, now).category == x.category
    ensures p.date.None? ==> Merge(x, p, now).date == x.date
    ensures p.description.None? ==> Merge(x, p, now).description == x.description
    ensures p.tags.None? ==> Merge(x, p, now).tags == x.tags
    ensures p.recurrence.None? ==> Merge(x, p, now).recurrence == x.recurrence
    ensures p.userId.None? ==> Merge(x, p, now).userId == x.userId
    ensures p.createdAt.None? ==> Merge(x, p, now).createdAt == x.createdAt
    ensures p.id.Some? ==> Merge(x, p, now).id == p.id.value
    ensures p.name.Some? ==> Merge(x, p, now).name == p.name.value
    ensures p.amount.Some? ==> Merge(x, p, now).amount == p.amount.value
    ensures p.itemType.Some? ==> Merge(x, p, now).itemType == p.itemType.value
    ensures p.category.Some? ==> Merge(x, p, now).category == p.category.value
    ensures p.date.Some? ==> Merge(x, p, now).date == p.date.value
    ensures p.description.Some? ==> Merge(x, p, now).description == p.description.value
    ensures p.tags.Some? ==> Merge(x, p, now).tags == p.tags.value
    ensures p.recurrence.Some? ==> Merge(x, p, now).recurrence == p.recurrence.value
    ensures p.userId.Some? ==> Merge(x, p, now).userId == p.userId.value
    ensures p.createdAt.Some? ==> Merge(x, p, now).createdAt == p.createdAt.value
    ensures p.description == Some(None) ==> Merge(x, p, now).description == None
  {
  }

  /** Updating only the amount changes the amount and the update stamp and
      nothing else; the empty patch only bumps the stamp. */
  lemma AmountOnlyUpdate(x: FinancialItem, amount: int, now: int)
    ensures Merge(x, EmptyPatch.(amount := Some(amount)), now) == x.(amount := amount, updatedAt := now)
    ensures Merge(x, EmptyPatch, now) == x.(updatedAt := now)
  {
  }

  /** Applying the same patch twice is applying it once (at the later time). */
  lemma MergeIdempotent(x: FinancialItem, p: Patch, t1: int, t2: int)
    ensures Merge(Merge(x, p, t1), p, t2) == Merge(x, p, t2)
  {
  }

  /** `items.filter(i => i.id !== id)`. */
  function WithoutId(items: seq<FinancialItem>, id: string): (kept: seq<FinancialItem>)
    ensures |kept| <= |items|
    ensures forall x :: x in kept <==> x in items && x.id != id
  {
    Filter(IdIsNot(id), items)
  }

  function IdIsNot(id: string): FinancialItem -> bool {
    (x: FinancialItem) => x.id != id
  }

  /** After deletion no item carries the id (so `getById` finds nothing),
      every other item keeps its multiplicity, and the survivors keep
      their order (deletion distributes over concatenation). */
  lemma DeletionRemovesExactlyTheId(items: seq<FinancialItem>, more: seq<FinancialItem>, id: string, x: FinancialItem)
    ensures FirstIndex(WithoutId(items, id), id) == -1
    ensures x.id != id ==> multiset(WithoutId(items, id))[x] == multiset(items)[x]
    ensures WithoutId(items + more, id) == WithoutId(items, id) + WithoutId(more, id)
  {
    var w := WithoutId(items, id);
    forall j | 0 <= j < |w| ensures w[j].id != id {
      assert w[j] in w;
    }
    FilterCount(IdIsNot(id), items, x);
    FilterConcat(IdIsNot(id), items, more);
  }

  /** Ids are pairwise distinct. */
  predicate UniqueIds(items: seq<FinancialItem>) {
    forall i, j :: 0 <= i < j < |items| ==> items[i].id != items[j].id
  }

  /** Appending an item whose id is fresh keeps the ids distinct, and
      deleting keeps them distinct. */
  lemma UniqueIdsPreserved(items: seq<FinancialItem>, d: ItemDraft, freshId: string, now: int, id: string)
    requires UniqueIds(items)
    requires forall x :: x in items ==> x.id != freshId
    ensures UniqueIds(items + [Stamp(d, freshId, now)])
    ensures UniqueIds(WithoutId(items, id))
  {
    var w := WithoutId(items, id);
    forall i, j | 0 <= i < j < |w| ensures w[i].id != w[j].id {
      WithoutIdOrder(items, id, i, j);
    }
    var grown := items + [Stamp(d, freshId, now)];
    forall i, j | 0 <= i < j < |grown| ensures grown[i].id != grown[j].id {
      if j == |items| {
        assert grown[i] in items;
      }
    }
  }

  /** Two positions of a filtered list come from two increasing positions of
      the input. */
  lemma {:induction false} WithoutIdOrder(items: seq<FinancialItem>, id: string, i: int, j: int)
    requires 0 <= i < j < |WithoutId(items, id)|
    requires UniqueIds(items)
    ensures WithoutId(items, id)[i].id != WithoutId(items, id)[j].id
  {
    var rest := WithoutId(items[1..], id);
    assert UniqueIds(items[1..]) by {
      forall a, b | 0 <= a < b < |items[1..]| ensures items[1..][a].id != items[1..][b].id {
        assert items[1..][a] == items[a + 1] && items[1..][b] == items[b + 1];
      }
    }
    if items[0].id != id {
      assert WithoutId(items, id) == [items[0]] + rest;
      if i == 0 {
        assert WithoutId(items, id)[j] in items[1..];
        var k :| 0 <= k < |items[1..]| && items[1..][k] == WithoutId(items, id)[j];
        assert items[k + 1] == WithoutId(items, id)[j];
      } else {
        WithoutIdOrder(items[1..], id, i - 1, j - 1);
      }
    } else {
      assert WithoutId(items, id) == rest;
      WithoutIdOrder(items[1..], id, i, j);
    }
  }

  // ---------------------------------------------------------------------
  // The JSON blob

  /** The JSON encoding as a pair of functions: `JSON.stringify` (which
      writes dates through `toISOString`), `JSON.parse` (None when it
      throws or yields no array of item records), and the two date
      conversions. */
  datatype Json = Json(
    stringify: seq<StoredRecord> -> string,
    parse: string -> Option<seq<StoredRecord>>,
    toIso: int -> string,
    fromIso: string -> int)

  /** What the encoding guarantees: parsing what was written gives it back,
      a written array is never the empty string, and an ISO 8601 string
      gives back its instant. */
  ghost predicate Lossless(j: Json) {
    && (forall rs :: j.parse(j.stringify(rs)) == Some(rs))
    && (forall rs :: j.stringify(rs) != "")
    && (forall t :: j.fromIso(j.toIso(t)) == t)
  }

  function MapDates<A, B>(r: Record<A>, f: A -> B): Record<B> {
    Record(r.id, r.name, r.amount, r.itemType, r.category, f(r.date),
           r.description, r.tags, r.recurrence, r.userId, f(r.createdAt), f(r.updatedAt))
  }

  /** `JSON.stringify(items)`. */
  function Encode(j: Json, items: seq<FinancialItem>): (blob: string)
    ensures Lossless(j) ==> blob != "" && j.parse(blob).Some? && |j.parse(blob).value| == |items|
  {
    j.stringify(seq(|items|, i requires 0 <= i < |items| => MapDates(items[i], j.toIso)))
  }

  /** `items.map(item => ({ ...item, date: new Date(item.date), ... }))`. */
  function Revive(j: Json, rs: seq<StoredRecord>): (items: seq<FinancialItem>)
    ensures |items| == |rs|
  {
    seq(|rs|, i requires 0 <= i < |rs| => MapDates(rs[i], j.fromIso))
  }

  /** `getItems` as a function of the slot: [] outside a browser, when the
      key is absent or empty, or when the blob does not parse; otherwise
      the parsed records with their dates rebuilt. */
  function Load(j: Json, inBrowser: bool, slot: Option<string>): (items: seq<FinancialItem>)
    ensures !inBrowser || slot == None || slot == Some("") ==> items == []
    ensures inBrowser && slot.Some? && j.parse(slot.value) == None ==> items == []
    ensures inBrowser && slot.Some? && slot.value != "" && j.parse(slot.value).Some? ==>
      |items| == |j.parse(slot.value).value|
  {
    if !inBrowser then []
    else match slot
      case None => []
      case Some(text) =>
        if text == "" then []
        else match j.parse(text)
          case None => []
          case Some(rs) => Revive(j, rs)
  }

  /** Round trip: reading the slot back gives exactly the list last written,
      dates included. */
  lemma LoadAfterSave(j: Json, items: seq<FinancialItem>)
    requires Lossless(j)
    ensures Load(j, true, Some(Encode(j, items))) == items
  {
    var rs := seq(|items|, i requires 0 <= i < |items| => MapDates(items[i], j.toIso));
    assert j.parse(j.stringify(rs)) == Some(rs);
    assert j.stringify(rs) != "";
    var back := Revive(j, rs);
    forall i | 0 <= i < |items| ensures back[i] == items[i] {
      assert j.fromIso(j.toIso(items[i].date)) == items[i].date;
      assert j.fromIso(j.toIso(items[i].createdAt)) == items[i].createdAt;
      assert j.fromIso(j.toIso(items[i].updatedAt)) == items[i].updatedAt;
    }
  }

  // ---------------------------------------------------------------------
  // The store

  function DateOf(x: FinancialItem): int {
    x.date
  }

  class LocalStore {
    const json: Json
    /** `typeof window !== 'undefined'`: false during server-side rendering,
        where reads give [] and writes do nothing. */
    const inBrowser: bool
    /** `localStorage.getItem('financialItems')`; None when the key is absent. */
    var slot: Option<string>

    ghost predicate Valid() {
      Lossless(json)
    }

    constructor (json: Json, inBrowser: bool, slot: Option<string>)
      requires Lossless(json)
      ensures Valid() && this.json == json && this.inBrowser == inBrowser && this.slot == slot
    {
      this.json := json;
      this.inBrowser := inBrowser;
      this.slot := slot;
    }

    /** `getItems`. */
    function GetItems(): (items: seq<FinancialItem>)
      reads this
      ensures !inBrowser || slot == None || slot == Some("") ==> items == []
    {
      Load(json, inBrowser, slot)
    }

    /** `saveItems`: `localStorage.setItem` of the encoded list, which throws
        when the storage refuses the write (`writable` false). */
    method SaveItems(items: seq<FinancialItem>, writable: bool) returns (r: Result<()>)
      requires Valid()
      modifies this
      ensures r.Ok? <==> (!inBrowser || writable)
      ensures slot == if inBrowser && writable then Some(Encode(json, items)) else old(slot)
      ensures inBrowser && writable ==> GetItems() == items
    {
      if !inBrowser {
        return Ok(());
      }
      if !writable {
        return Err(WriteRejected);
      }
      slot := Some(Encode(json, items));
      LoadAfterSave(json, items);
      r := Ok(());
    }

    /** Local `create`: stamp the draft with the fresh id and the clock,
        append it, write the list back. */
    method Create(draft: ItemDraft, now: int, freshId: string, writable: bool) returns (r: Result<FinancialItem>)
      requires Valid()
      requires forall x :: x in GetItems() ==> x.id != freshId
      modifies this
      ensures r.Ok? <==> (!inBrowser || writable)
      ensures r.Ok? ==> r.value == Stamp(draft, freshId, now)
      ensures if inBrowser && writable then GetItems() == old(GetItems()) + [Stamp(draft, freshId, now)]
              else slot == old(slot)
    {
      var created := Stamp(draft, freshId, now);
      var items := GetItems();
      items := items + [created];
      var saved := SaveItems(items, writable);
      if saved.Err? {
        return Err(saved.error);
      }
      r := Ok(created);
    }

    /** Local `update`: merge the patch into the first item with the id and
        write the list back; an absent id writes nothing. */
    method Update(id: string, patch: Patch, now: int, writable: bool) returns (r: Result<()>)
      requires Valid()
      modifies this
      ensures var items := old(GetItems()); var k := FirstIndex(items, id);
        && (r.Ok? <==> (k < 0 || writable))
        && if k >= 0 && writable then GetItems() == items[k := Merge(items[k], patch, now)]
           else slot == old(slot)
    {
      var items := GetItems();
      var index := FindIndex(items, id);
      if index != -1 {
        items := items[index := Merge(items[index], patch, now)];
        r := SaveItems(items, writable);
      } else {
        r := Ok(());
      }
    }

    /** Local `delete`: drop every item with the id and always write back. */
    method Delete(id: string, writable: bool) returns (r: Result<()>)
      requires Valid()
      modifies this
      ensures r.Ok? <==> (!inBrowser || writable)
      ensures if inBrowser && writable then GetItems() == WithoutId(old(GetItems()), id)
              else slot == old(slot)
    {
      var items := WithoutId(GetItems(), id);
      r := SaveItems(items, writable);
    }

    /** Local `getAll`: the chain of filters, then the in-place sort by date,
        newest first. The result is a permutation of the selected items. */
    method GetAll(f: Filters) returns (result: seq<FinancialItem>)
      ensures multiset(result) == multiset(Select(f, GetItems()))
      ensures forall i, j :: 0 <= i < j < |result| ==> result[i].date >= result[j].date
    {
      var items := ApplyFilterChain(GetItems(), f);
      var a := new FinancialItem[|items|](i requires 0 <= i < |items| => items[i]);
      assert a[..] == items;
      SortDescending(a, DateOf);
      result := a[..];
    }

    /** Local `getById`: the first item with the id, or None. */
    method GetById(id: string) returns (r: Option<FinancialItem>)
      ensures r.None? <==> forall x :: x in GetItems() ==> x.id != id
      ensures r.Some? ==> r.value.id == id && r.value == GetItems()[FirstIndex(GetItems(), id)]
    {
      var items := GetItems();
      var k := FindIndex(items, id);
      if k == -1 {
        r := None;
      } else {
        r := Some(items[k]);
      }
    }
  }

  /** The chain of `filter` calls of local `getAll`, one per present filter,
      in the source's order. */
  method ApplyFilterChain(all: seq<FinancialItem>, f: Filters) returns (items: seq<FinancialItem>)
    ensures items == Select(f, all)
  {
    items := all;
    FirstStage(f, all);
    if f.itemType.Some? {
      items := Filter(TypeIs(f.itemType.value), items);
    }
    TypeStage(f, all);
    if f.category.Some? {
      items := Filter(CategoryIs(f.category.value), items);
    }
    CategoryStage(f, all);
    if f.startDate.Some? {
      items := Filter(NotBefore(f.startDate.value), items);
    }
    StartStage(f, all);
    if f.endDate.Some? {
      items := Filter(NotAfter(f.endDate.value), items);
    }
    EndStage(f, all);
    if f.search.Some? && f.search.value != "" {
      items := Filter(Finds(f.search.value), items);
    }
    SearchStage(f, all);
  }

  function TypeIs(t: ItemType): FinancialItem -> bool {
    (x: FinancialItem) => x.itemType == t
  }

  function CategoryIs(c: Category): FinancialItem -> bool {
    (x: FinancialItem) => x.category == c
  }

  function NotBefore(start: int): FinancialItem -> bool {
    (x: FinancialItem) => x.date >= start
  }

  function NotAfter(end: int): FinancialItem -> bool {
    (x: FinancialItem) => x.date <= end
  }

  function Finds(term: string): FinancialItem -> bool {
    (x: FinancialItem) => SearchMatches(x, term)
  }

  lemma FirstStage(f: Filters, all: seq<FinancialItem>)
    ensures Stage(f, 0, all) == all
  {
    FilterKeepsAll(StagePred(f, 0), all);
  }

  lemma TypeStage(f: Filters, all: seq<FinancialItem>)
    ensures Stage(f, 1, all) ==
      if f.itemType.Some? then Filter(TypeIs(f.itemType.value), Stage(f, 0, all)) else Stage(f, 0, all)
  {
    if f.itemType.Some? {
      NextStage(f, 0, all, true, TypeIs(f.itemType.value));
    } else {
      NextStage(f, 0, all, false, TypeIs(Income));
    }
  }

  lemma CategoryStage(f: Filters, all: seq<FinancialItem>)
    ensures Stage(f, 2, all) ==
      if f.category.Some? then Filter(CategoryIs(f.category.value), Stage(f, 1, all)) else Stage(f, 1, all)
  {
    if f.category.Some? {
      NextStage(f, 1, all, true, CategoryIs(f.category.value));
    } else {
      NextStage(f, 1, all, false, CategoryIs(Salary));
    }
  }

  lemma StartStage(f: Filters, all: seq<FinancialItem>)
    ensures Stage(f, 3, all) ==
      if f.startDate.Some? then Filter(NotBefore(f.startDate.value), Stage(f, 2, all)) else Stage(f, 2, all)
  {
    if f.startDate.Some? {
      NextStage(f, 2, all, true, NotBefore(f.startDate.value));
    } else {
      NextStage(f, 2, all, false, NotBefore(0));
    }
  }

  lemma EndStage(f: Filters, all: seq<FinancialItem>)
    ensures Stage(f, 4, all) ==
      if f.endDate.Some? then Filter(NotAfter(f.endDate.value), Stage(f, 3, all)) else Stage(f, 3, all)
  {
    if f.endDate.Some? {
      NextStage(f, 3, all, true, NotAfter(f.endDate.value));
    } else {
      NextStage(f, 3, all, false, NotAfter(0));
    }
  }

  lemma SearchStage(f: Filters, all: seq<FinancialItem>)
    ensures Select(f, all) ==
      if f.search.Some? && f.search.value != "" then Filter(Finds(f.search.value), Stage(f, 4, all))
      else Stage(f, 4, all)
  {
    if f.search.Some? && f.search.value != "" {
      NextStage(f, 4, all, true, Finds(f.search.value));
    } else {
      NextStage(f, 4, all, false, Finds(""));
    }
    FilterExt(StagePred(f, 5), MatchesAll(f), all);
  }

  /** The first `n` filters of the chain in `getAll` hold of the item. */
  predicate MatchesFirst(f: Filters, n: nat, x: FinancialItem) {
    && (n >= 1 && f.itemType.Some? ==> x.itemType == f.itemType.value)
    && (n >= 2 && f.category.Some? ==> x.category == f.category.value)
    && (n >= 3 && f.startDate.Some? ==> x.date >= f.startDate.value)
    && (n >= 4 && f.endDate.Some? ==> x.date <= f.endDate.value)
    && (n >= 5 && f.search.Some? && f.search.value != "" ==> SearchMatches(x, f.search.value))
  }

  function Stage(f: Filters, n: nat, all: seq<FinancialItem>): seq<FinancialItem> {
    Filter(StagePred(f, n), all)
  }

  function StagePred(f: Filters, n: nat): FinancialItem -> bool {
    (x: FinancialItem) => MatchesFirst(f, n, x)
  }

  /** One more link of the chain: filtering by the next present filter, or
      skipping an absent one, moves from stage n to stage n + 1. */
  lemma NextStage(f: Filters, n: nat, all: seq<FinancialItem>, present: bool, p: FinancialItem -> bool)
    requires n < 5
    requires present ==> forall x :: MatchesFirst(f, n + 1, x) == (MatchesFirst(f, n, x) && p(x))
    requires !present ==> forall x :: MatchesFirst(f, n + 1, x) == MatchesFirst(f, n, x)
    ensures Stage(f, n + 1, all) == if present then Filter(p, Stage(f, n, all)) else Stage(f, n, all)
  {
    if present {
      FilterCompose(p, StagePred(f, n), StagePred(f, n + 1), all);
    } else {
      FilterExt(StagePred(f, n + 1), StagePred(f, n), all);
    }
  }
}
