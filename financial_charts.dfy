/** The data behind the dashboard charts: the expense and income
    breakdowns by category (grouped, sorted by total, the expense one cut
    to five slices) and the per-month income, expense and balance rows. */
module FinancialCharts {
  import opened Types
  import opened Seqs
  import opened Sorting
  import opened FinancialService
  import opened FinancialItemsHook
  import opened BalanceSummary

  /** One pie slice: a category and the total of its items. The chart
      shows `CategoryLabel(category)` and `CategoryIcon(category)`, which
      are injective, and uses the total both as `amount` and `value`. */
  datatype Slice = Slice(category: Category, amount: int)

  function SliceAmount(s: Slice): int {
    s.amount
  }

  /** The total of the items of category c. */
  function CategoryTotal(items: seq<FinancialItem>, c: Category): int {
    AmountSum(Filter(CategoryIs(c), items))
  }

  /** The categories of the items, each once, in order of first appearance
      (the key order of the object the grouping fills). */
  function FirstAppearance(items: seq<FinancialItem>): (keys: seq<Category>)
    ensures NoDuplicates(keys)
    ensures forall c :: c in keys <==> exists i :: 0 <= i < |items| && items[i].category == c
  {
    if items == [] then []
    else
      var front := items[..|items| - 1];
      var keys := FirstAppearance(front);
      var c := items[|items| - 1].category;
      assert forall i :: 0 <= i < |front| ==> front[i] == items[i];
      if c in keys then keys else keys + [c]
  }

  /** The slices for the given keys, in their order. */
  function Totals(keys: seq<Category>, items: seq<FinancialItem>): (slices: seq<Slice>)
    ensures |slices| == |keys|
    ensures forall k :: 0 <= k < |keys| ==> slices[k] == Slice(keys[k], CategoryTotal(items, keys[k]))
  {
    if keys == [] then [] else [Slice(keys[0], CategoryTotal(items, keys[0]))] + Totals(keys[1..], items)
  }

  /** The grouping's result: one slice per category present, with that
      category's total, in order of first appearance. */
  function Breakdown(items: seq<FinancialItem>): seq<Slice> {
    Totals(FirstAppearance(items), items)
  }

  function SliceSum(slices: seq<Slice>): int {
    if slices == [] then 0 else slices[0].amount + SliceSum(slices[1..])
  }

  // ---------------------------------------------------------------------
  // Facts about category totals

  /** Adding one item at the end adds its amount to its own category's
      total and leaves the other totals alone. */
  lemma CategoryTotalSnoc(items: seq<FinancialItem>, x: FinancialItem, c: Category)
    ensures CategoryTotal(items + [x], c) == CategoryTotal(items, c) + (if x.category == c then x.amount else 0)
  {
    FilterConcat(CategoryIs(c), items, [x]);
    AmountSumConcat(Filter(CategoryIs(c), items), Filter(CategoryIs(c), [x]));
    assert [x][1..] == [];
  }

  /** A category no item has totals to zero. */
  lemma {:induction false} AbsentCategoryTotal(items: seq<FinancialItem>, c: Category)
    requires forall i :: 0 <= i < |items| ==> items[i].category != c
    ensures CategoryTotal(items, c) == 0
  {
    if items != [] {
      assert items[0].category != c;
      AbsentCategoryTotal(items[1..], c);
      assert Filter(CategoryIs(c), items) == Filter(CategoryIs(c), items[1..]);
    }
  }

  /** The key order after one more item: its category is appended when it
      is new. */
  lemma FirstAppearanceSnoc(p: seq<FinancialItem>, x: FinancialItem)
    ensures FirstAppearance(p + [x]) ==
      if x.category in FirstAppearance(p) then FirstAppearance(p) else FirstAppearance(p) + [x.category]
  {
    assert (p + [x])[..|p|] == p;
  }

  /** The slices' sum, one item more. */
  lemma {:induction false} TotalsSnoc(keys: seq<Category>, items: seq<FinancialItem>, x: FinancialItem)
    requires NoDuplicates(keys)
    ensures SliceSum(Totals(keys, items + [x])) ==
      SliceSum(Totals(keys, items)) + (if x.category in keys then x.amount else 0)
  {
    if keys != [] {
      CategoryTotalSnoc(items, x, keys[0]);
      TotalsSnoc(keys[1..], items, x);
      assert x.category in keys <==> x.category == keys[0] || x.category in keys[1..];
      assert keys[0] !in keys[1..];
    }
  }

  lemma {:induction false} TotalsAppend(keys: seq<Category>, c: Category, items: seq<FinancialItem>)
    ensures SliceSum(Totals(keys + [c], items)) == SliceSum(Totals(keys, items)) + CategoryTotal(items, c)
  {
    if keys == [] {
      assert keys + [c] == [c];
    } else {
      assert (keys + [c])[1..] == keys[1..] + [c];
      TotalsAppend(keys[1..], c, items);
    }
  }

  /** Before any cut, the slices of a breakdown add up to the total of the
      items it groups. */
  lemma {:induction false} BreakdownAddsUp(items: seq<FinancialItem>)
    ensures SliceSum(Breakdown(items)) == AmountSum(items)
  {
    if items != [] {
      var front, x := items[..|items| - 1], items[|items| - 1];
      assert items == front + [x];
      BreakdownAddsUp(front);
      AmountSumConcat(front, [x]);
      assert AmountSum([x]) == x.amount;
      BreakdownSnoc(front, x);
    }
  }

  /** One item more adds its amount to the breakdown's sum, whether its
      category is already present or new. */
  lemma BreakdownSnoc(front: seq<FinancialItem>, x: FinancialItem)
    ensures SliceSum(Breakdown(front + [x])) == SliceSum(Breakdown(front)) + x.amount
  {
    var keys := FirstAppearance(front);
    FirstAppearanceSnoc(front, x);
    TotalsSnoc(keys, front, x);
    if x.category !in keys {
      TotalsAppend(keys, x.category, front + [x]);
      CategoryTotalSnoc(front, x, x.category);
      NewCategoryTotal(front, x.category);
    }
  }

  // ---------------------------------------------------------------------
  // The grouping, the sort and the cut

  /** The grouping's accumulator after the items `p`: its keys in the
      order they were added, and each key's running total. */
  ghost predicate Grouped(p: seq<FinancialItem>, acc: map<Category, int>, keys: seq<Category>) {
    && keys == FirstAppearance(p)
    && (forall c :: c in acc <==> c in keys)
    && forall c :: c in acc ==> acc[c] == CategoryTotal(p, c)
  }

  /** One step of the reduce keeps the accumulator in step with the items
      seen. */
  lemma GroupStep(p: seq<FinancialItem>, x: FinancialItem, acc: map<Category, int>, keys: seq<Category>)
    requires Grouped(p, acc, keys)
    ensures Grouped(p + [x],
      acc[x.category := (if x.category in acc then acc[x.category] else 0) + x.amount],
      if x.category in acc then keys else keys + [x.category])
  {
    FirstAppearanceSnoc(p, x);
    if x.category in acc {
      assert x.category in keys;
    } else {
      assert x.category !in keys;
      NewCategoryTotal(p, x.category);
      var keys' := keys + [x.category];
      assert forall c :: c in keys' <==> c in keys || c == x.category;
    }
    RunningTotalsStep(p, x, acc);
  }

  /** A category absent from the key order totals to zero. */
  lemma NewCategoryTotal(p: seq<FinancialItem>, c: Category)
    requires c !in FirstAppearance(p)
    ensures CategoryTotal(p, c) == 0
  {
    AbsentCategoryTotal(p, c);
  }

  /** Adding an item's amount to its category's running total keeps every
      running total equal to its category's total. */
  lemma RunningTotalsStep(p: seq<FinancialItem>, x: FinancialItem, acc: map<Category, int>)
    requires forall c :: c in acc ==> acc[c] == CategoryTotal(p, c)
    requires x.category !in acc ==> CategoryTotal(p, x.category) == 0
    ensures var acc' := acc[x.category := (if x.category in acc then acc[x.category] else 0) + x.amount];
      forall c :: c in acc' ==> acc'[c] == CategoryTotal(p + [x], c)
  {
    var acc' := acc[x.category := (if x.category in acc then acc[x.category] else 0) + x.amount];
    forall c | c in acc' ensures acc'[c] == CategoryTotal(p + [x], c) {
      CategoryTotalSnoc(p, x, c);
    }
  }

  /** `items.reduce((acc, item) => { acc[item.category] = (acc[item.category]
      || 0) + item.amount; return acc; }, {})` followed by `Object.entries`:
      the accumulator gains a key the first time a category is met. */
  method GroupByCategory(items: seq<FinancialItem>) returns (slices: seq<Slice>)
    ensures slices == Breakdown(items)
  {
    var acc: map<Category, int> := map[];
    var keys: seq<Category> := [];
    var i := 0;
    while i < |items|
      invariant 0 <= i <= |items|
      invariant Grouped(items[..i], acc, keys)
    {
      var x := items[i];
      assert items[..i + 1] == items[..i] + [x];
      GroupStep(items[..i], x, acc, keys);
      if x.category !in acc {
        keys := keys + [x.category];
      }
      acc := acc[x.category := (if x.category in acc then acc[x.category] else 0) + x.amount];
      i := i + 1;
    }
    assert items[..i] == items;
    slices := seq(|keys|, k requires 0 <= k < |keys| => Slice(keys[k], acc[keys[k]]));
  }

  /** `.sort((a, b) => b.amount - a.amount)` on the slices. */
  method SortByAmount(slices: seq<Slice>) returns (sorted: seq<Slice>)
    ensures multiset(sorted) == multiset(slices)
    ensures forall i, j :: 0 <= i < j < |sorted| ==> sorted[i].amount >= sorted[j].amount
  {
    var a := new Slice[|slices|](k requires 0 <= k < |slices| => slices[k]);
    assert a[..] == slices;
    SortDescending(a, SliceAmount);
    sorted := a[..];
  }

  /** Cutting a list sorted largest first keeps slices of the list, and
      no slice cut away is larger than one kept. */
  lemma TopCut(all: seq<Slice>, sorted: seq<Slice>, n: nat)
    requires multiset(sorted) == multiset(all)
    requires forall i, j :: 0 <= i < j < |sorted| ==> sorted[i].amount >= sorted[j].amount
    requires n <= |sorted|
    ensures |sorted| == |all|
    ensures forall i, j :: 0 <= i < j < n ==> sorted[..n][i].amount >= sorted[..n][j].amount
    ensures forall s :: s in sorted[..n] ==> s in all
    ensures forall s, t :: s in all && s !in sorted[..n] && t in sorted[..n] ==> t.amount >= s.amount
    ensures multiset(sorted[..n]) <= multiset(all)
  {
    assert |multiset(sorted)| == |multiset(all)|;
    var top := sorted[..n];
    assert sorted == top + sorted[n..];
    forall s | s in top ensures s in all {
      assert s in multiset(sorted);
    }
    forall s, t | s in all && s !in top && t in top ensures t.amount >= s.amount {
      assert s in multiset(sorted);
      var k :| 0 <= k < |sorted| && sorted[k] == s;
      var j :| 0 <= j < |top| && top[j] == t;
      assert k >= n;
    }
  }

  /** `expensesByCategory`: the expense breakdown, largest first, cut to
      five slices. Every slice is a category's true total; no category
      left out has a larger total than a slice kept. */
  method ExpensesByCategory(items: seq<FinancialItem>) returns (top: seq<Slice>)
    ensures |top| == if |Breakdown(Expenses(items))| < 5 then |Breakdown(Expenses(items))| else 5
    ensures forall i, j :: 0 <= i < j < |top| ==> top[i].amount >= top[j].amount
    ensures forall s :: s in top ==> s in Breakdown(Expenses(items))
    ensures forall s, t :: s in Breakdown(Expenses(items)) && s !in top && t in top ==> t.amount >= s.amount
    ensures multiset(top) <= multiset(Breakdown(Expenses(items)))
    ensures DistinctCategories(top)
  {
    ghost var all := Breakdown(Expenses(items));
    var grouped := GroupByCategory(Expenses(items));
    var sorted := SortByAmount(grouped);
    var n := if |sorted| < 5 then |sorted| else 5;
    TopCut(all, sorted, n);
    top := sorted[..n];
    BreakdownDistinct(Expenses(items));
    DistinctKept(all, top);
  }

  /** No two slices share a category. */
  ghost predicate DistinctCategories(slices: seq<Slice>) {
    forall i, j :: 0 <= i < j < |slices| ==> slices[i].category != slices[j].category
  }

  /** A breakdown has one slice per category. */
  lemma BreakdownDistinct(items: seq<FinancialItem>)
    ensures DistinctCategories(Breakdown(items))
  {
    var keys := FirstAppearance(items);
    var slices := Breakdown(items);
    forall i, j | 0 <= i < j < |slices| ensures slices[i].category != slices[j].category {
      assert slices[i].category == keys[i] && slices[j].category == keys[j];
    }
  }

  /** Slices taken from a list with one slice per category, each no more
      often than it occurs there, again have one slice per category. */
  lemma DistinctKept(all: seq<Slice>, top: seq<Slice>)
    requires DistinctCategories(all)
    requires multiset(top) <= multiset(all)
    ensures DistinctCategories(top)
  {
    forall i, j | 0 <= i < j < |top| ensures top[i].category != top[j].category {
      if top[i].category == top[j].category {
        assert top[i] in multiset(all) && top[j] in multiset(all);
        SameCategorySameSlice(all, top[i], top[j]);
        OccursTwice(top, i, j);
        OccursAtMostOnce(all, top[i]);
      }
    }
  }

  lemma SameCategorySameSlice(all: seq<Slice>, s: Slice, t: Slice)
    requires DistinctCategories(all)
    requires s in all && t in all && s.category == t.category
    ensures s == t
  {
    var a :| 0 <= a < |all| && all[a] == s;
    var b :| 0 <= b < |all| && all[b] == t;
    assert a == b;
  }

  /** An element at two positions occurs at least twice. */
  lemma OccursTwice(s: seq<Slice>, i: int, j: int)
    requires 0 <= i < j < |s| && s[i] == s[j]
    ensures multiset(s)[s[i]] >= 2
  {
    assert s == s[..j] + [s[j]] + s[j + 1..];
    assert s[i] == s[..j][i];
  }

  /** In a list with one slice per category, a slice occurs at most once. */
  lemma {:induction false} OccursAtMostOnce(s: seq<Slice>, x: Slice)
    requires DistinctCategories(s)
    ensures multiset(s)[x] <= 1
  {
    if s != [] {
      assert s == [s[0]] + s[1..];
      assert DistinctCategories(s[1..]) by {
        forall i, j | 0 <= i < j < |s[1..]| ensures s[1..][i].category != s[1..][j].category {
          assert s[1..][i] == s[i + 1] && s[1..][j] == s[j + 1];
        }
      }
      OccursAtMostOnce(s[1..], x);
      if x == s[0] {
        assert x !in s[1..] by {
          forall k | 0 <= k < |s[1..]| ensures s[1..][k] != x {
            assert s[1..][k] == s[k + 1];
          }
        }
      }
    }
  }

  /** `incomeByCategory`: the income breakdown, largest first, not cut. */
  method IncomeByCategory(items: seq<FinancialItem>) returns (slices: seq<Slice>)
    ensures multiset(slices) == multiset(Breakdown(Incomes(items)))
    ensures forall i, j :: 0 <= i < j < |slices| ==> slices[i].amount >= slices[j].amount
    ensures DistinctCategories(slices)
  {
    var incomes := Incomes(items);
    var grouped := GroupByCategory(incomes);
    slices := SortByAmount(grouped);
    BreakdownDistinct(incomes);
    DistinctKept(Breakdown(incomes), slices);
  }

  lemma TotalsCategory(keys: seq<Category>, items: seq<FinancialItem>, c: Category)
    ensures (exists s :: s in Totals(keys, items) && s.category == c) <==> c in keys
  {
    var slices := Totals(keys, items);
    if c in keys {
      var k :| 0 <= k < |keys| && keys[k] == c;
      assert slices[k] in slices;
    }
    if s :| s in slices && s.category == c {
      var k :| 0 <= k < |slices| && slices[k] == s;
      assert keys[k] == c;
    }
  }

  lemma KeyPresent(items: seq<FinancialItem>, c: Category)
    ensures c in FirstAppearance(items) <==> exists x :: x in items && x.category == c
  {
    if x :| x in items && x.category == c {
      var i :| 0 <= i < |items| && items[i] == x;
      assert items[i].category == c;
    }
    if c in FirstAppearance(items) {
      var i :| 0 <= i < |items| && items[i].category == c;
      assert items[i] in items;
    }
  }

  /** A breakdown holds a slice for a category exactly when some item has
      it. */
  lemma SliceForCategory(items: seq<FinancialItem>, c: Category)
    ensures (exists s :: s in Breakdown(items) && s.category == c) <==>
      exists x :: x in items && x.category == c
  {
    TotalsCategory(FirstAppearance(items), items, c);
    KeyPresent(items, c);
  }

  /** The breakdown of one type holds a slice for exactly the categories
      that items of that type have. */
  lemma BreakdownCategories(items: seq<FinancialItem>, t: ItemType, c: Category)
    ensures (exists s :: s in Breakdown(Filter(TypeIs(t), items)) && s.category == c) <==>
      exists x :: x in items && x.itemType == t && x.category == c
  {
    var typed := Filter(TypeIs(t), items);
    SliceForCategory(typed, c);
    if x :| x in items && x.itemType == t && x.category == c {
      assert x in typed;
    }
  }

  // ---------------------------------------------------------------------
  // Monthly rows

  /** One month of the line chart: its label and its first and last
      instants, as `format(month, 'MMM')`, `startOfMonth` and `endOfMonth`
      give them. */
  datatype Bucket = Bucket(title: string, first: int, last: int)

  /** `{ month, Receitas, Despesas, Saldo }`. */
  datatype MonthRow = MonthRow(month: string, receitas: int, despesas: int, saldo: int)

  function InBucket(b: Bucket): FinancialItem -> bool {
    (x: FinancialItem) => b.first <= x.date <= b.last
  }

  /** The items dated inside the bucket, both ends included. */
  function MonthItems(items: seq<FinancialItem>, b: Bucket): (r: seq<FinancialItem>)
    ensures forall x :: x in r <==> x in items && b.first <= x.date <= b.last
  {
    Filter(InBucket(b), items)
  }

  function MonthRowOf(items: seq<FinancialItem>, b: Bucket): (row: MonthRow)
    ensures row.month == b.title
    ensures row.receitas == AmountSum(Incomes(MonthItems(items, b)))
    ensures row.despesas == AmountSum(Expenses(MonthItems(items, b)))
    ensures row.saldo == row.receitas - row.despesas
  {
    var monthItems := MonthItems(items, b);
    var income := TotalIncome(Incomes(monthItems));
    var expense := TotalExpenses(Expenses(monthItems));
    MonthRow(b.title, income, expense, income - expense)
  }

  /** `monthlyData`: one row per bucket, in the buckets' order. */
  function MonthlyData(items: seq<FinancialItem>, buckets: seq<Bucket>): (rows: seq<MonthRow>)
    ensures |rows| == |buckets|
    ensures forall k :: 0 <= k < |buckets| ==> rows[k] == MonthRowOf(items, buckets[k])
  {
    seq(|buckets|, k requires 0 <= k < |buckets| => MonthRowOf(items, buckets[k]))
  }

  /** A month's balance is the signed sum of the items dated in it, the
      same quantity the balance card shows for those items. */
  lemma MonthSaldo(items: seq<FinancialItem>, b: Bucket)
    ensures MonthRowOf(items, b).saldo == SignedSum(MonthItems(items, b))
    ensures MonthRowOf(items, b).saldo == NetBalance(Incomes(MonthItems(items, b)), Expenses(MonthItems(items, b)))
  {
    NetBalanceOfSplit(MonthItems(items, b));
  }
}
