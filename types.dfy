/** The domain taxonomy of the finance dashboard: item types, the thirteen
    categories split into an income list and an expense list, recurrences,
    budget periods, the item record, and the label and icon tables. */
module Types {

  datatype Option<+T> = None | Some(value: T)

  /** Why the local store rejected a write: `localStorage.setItem` threw
      (quota exceeded, storage disabled). */
  datatype StoreError = WriteRejected

  datatype Result<+T> = Ok(value: T) | Err(error: StoreError)

  /** 'income' | 'expense' */
  datatype ItemType = Income | Expense

  datatype Category =
    | Salary | Freelance | Investment | OtherIncome
    | Housing | Food | Transport | Health | Education
    | Entertainment | Shopping | Bills | OtherExpense

  /** 'none' | 'daily' | 'weekly' | 'monthly' | 'yearly' */
  datatype Recurrence = NoRecurrence | Daily | Weekly | Monthly | Yearly

  /** A budget's 'monthly' | 'yearly' period. */
  datatype BudgetPeriod = MonthlyBudget | YearlyBudget

  /** One income or expense entry. The three instants are of type `D`: in
      memory they are `int` milliseconds since the epoch (`FinancialItem`);
      in the stored JSON blob they are ISO 8601 strings (`StoredRecord`).
      Amounts are exact integer cents. */
  datatype Record<D> = Record(
    id: string,
    name: string,
    amount: int,
    itemType: ItemType,
    category: Category,
    date: D,
    description: Option<string>,
    tags: Option<seq<string>>,
    recurrence: Option<Recurrence>,
    userId: Option<string>,
    createdAt: D,
    updatedAt: D)

  type FinancialItem = Record<int>
  type StoredRecord = Record<string>

  /** What a caller hands to `create`: an item without id and timestamps. */
  datatype ItemDraft = ItemDraft(
    name: string,
    amount: int,
    itemType: ItemType,
    category: Category,
    date: int,
    description: Option<string>,
    tags: Option<seq<string>>,
    recurrence: Option<Recurrence>,
    userId: Option<string>)

  /** The item `create` builds from a draft, its new id and the clock. */
  function Stamp(d: ItemDraft, id: string, now: int): (x: FinancialItem)
    ensures x.id == id && x.createdAt == now && x.updatedAt == now
    ensures Unstamp(x) == d
  {
    Record(id, d.name, d.amount, d.itemType, d.category, d.date,
           d.description, d.tags, d.recurrence, d.userId, now, now)
  }

  /** The draft part of an item: everything but id and timestamps. */
  function Unstamp(x: FinancialItem): ItemDraft {
    ItemDraft(x.name, x.amount, x.itemType, x.category, x.date,
              x.description, x.tags, x.recurrence, x.userId)
  }

  // ---------------------------------------------------------------------
  // String keys of the enumerations

  function TypeKey(t: ItemType): string {
    match t
    case Income => "income"
    case Expense => "expense"
  }

  function ParseType(s: string): (r: Option<ItemType>)
    ensures r.Some? ==> TypeKey(r.value) == s
  {
    if s == "income" then Some(Income)
    else if s == "expense" then Some(Expense)
    else None
  }

  function CategoryKey(c: Category): string {
    match c
    case Salary => "salary"
    case Freelance => "freelance"
    case Investment => "investment"
    case OtherIncome => "other_income"
    case Housing => "housing"
    case Food => "food"
    case Transport => "transport"
    case Health => "health"
    case Education => "education"
    case Entertainment => "entertainment"
    case Shopping => "shopping"
    case Bills => "bills"
    case OtherExpense => "other_expense"
  }

  function ParseCategory(s: string): (r: Option<Category>)
    ensures r.Some? ==> CategoryKey(r.value) == s
  {
    if s == "salary" then Some(Salary)
    else if s == "freelance" then Some(Freelance)
    else if s == "investment" then Some(Investment)
    else if s == "other_income" then Some(OtherIncome)
    else if s == "housing" then Some(Housing)
    else if s == "food" then Some(Food)
    else if s == "transport" then Some(Transport)
    else if s == "health" then Some(Health)
    else if s == "education" then Some(Education)
    else if s == "entertainment" then Some(Entertainment)
    else if s == "shopping" then Some(Shopping)
    else if s == "bills" then Some(Bills)
    else if s == "other_expense" then Some(OtherExpense)
    else None
  }

  function RecurrenceKey(r: Recurrence): string {
    match r
    case NoRecurrence => "none"
    case Daily => "daily"
    case Weekly => "weekly"
    case Monthly => "monthly"
    case Yearly => "yearly"
  }

  function ParseRecurrence(s: string): (r: Option<Recurrence>)
    ensures r.Some? ==> RecurrenceKey(r.value) == s
  {
    if s == "none" then Some(NoRecurrence)
    else if s == "daily" then Some(Daily)
    else if s == "weekly" then Some(Weekly)
    else if s == "monthly" then Some(Monthly)
    else if s == "yearly" then Some(Yearly)
    else None
  }

  function PeriodKey(p: BudgetPeriod): string {
    match p
    case MonthlyBudget => "monthly"
    case YearlyBudget => "yearly"
  }

  function ParsePeriod(s: string): (r: Option<BudgetPeriod>)
    ensures r.Some? ==> PeriodKey(r.value) == s
  {
    if s == "monthly" then Some(MonthlyBudget)
    else if s == "yearly" then Some(YearlyBudget)
    else None
  }

  /** Every key parses back to its value: the two enumerations' string forms
      are in one-to-one correspondence with their values. */
  lemma {:induction false} KeysRoundTrip(t: ItemType, c: Category, r: Recurrence, p: BudgetPeriod)
    ensures ParseType(TypeKey(t)) == Some(t)
    ensures ParseCategory(CategoryKey(c)) == Some(c)
    ensures ParseRecurrence(RecurrenceKey(r)) == Some(r)
    ensures ParsePeriod(PeriodKey(p)) == Some(p)
  {
    match c
    case Salary =>
    case Freelance =>
    case Investment =>
    case OtherIncome =>
    case Housing =>
    case Food =>
    case Transport =>
    case Health =>
    case Education =>
    case Entertainment =>
    case Shopping =>
    case Bills =>
    case OtherExpense =>
  }

  // ---------------------------------------------------------------------
  // The category lists

  const IncomeCategories: seq<Category> := [Salary, Freelance, Investment, OtherIncome]

  const ExpenseCategories: seq<Category> :=
    [Housing, Food, Transport, Health, Education, Entertainment, Shopping, Bills, OtherExpense]

  predicate NoDuplicates<T(==)>(s: seq<T>) {
    forall i, j :: 0 <= i < j < |s| ==> s[i] != s[j]
  }

  /** The list of categories that belong to an item type. */
  function CategoriesOf(t: ItemType): seq<Category> {
    match t
    case Income => IncomeCategories
    case Expense => ExpenseCategories
  }

  /** The two lists have no duplicates and no element in common, and every
      category is in exactly one of them. */
  lemma CategoryListsPartition()
    ensures NoDuplicates(IncomeCategories) && NoDuplicates(ExpenseCategories)
    ensures |IncomeCategories| == 4 && |ExpenseCategories| == 9
    ensures forall c :: (c in IncomeCategories) != (c in ExpenseCategories)
    ensures NoDuplicates(IncomeCategories + ExpenseCategories)
    ensures forall c :: c in IncomeCategories + ExpenseCategories
  {
    var all := IncomeCategories + ExpenseCategories;
    forall i, j | 0 <= i < j < |all| ensures all[i] != all[j] {
      assert CategoryIndex(all[i]) == i && CategoryIndex(all[j]) == j;
    }
    forall c ensures all[CategoryIndex(c)] == c && (c in IncomeCategories) != (c in ExpenseCategories) {
      var k := CategoryIndex(c);
      if k < 4 {
        assert IncomeCategories[k] == c;
        assert c !in ExpenseCategories by {
          forall j | 0 <= j < 9 ensures ExpenseCategories[j] != c {
            assert all[4 + j] == ExpenseCategories[j];
          }
        }
      } else {
        assert ExpenseCategories[k - 4] == c;
        assert c !in IncomeCategories by {
          forall j | 0 <= j < 4 ensures IncomeCategories[j] != c {
            assert all[j] == IncomeCategories[j];
          }
        }
      }
    }
  }

  /** The position of a category in the declaration order of `Category`. */
  function CategoryIndex(c: Category): (k: nat)
    ensures k < 13 && (IncomeCategories + ExpenseCategories)[k] == c
  {
    match c
    case Salary => 0
    case Freelance => 1
    case Investment => 2
    case OtherIncome => 3
    case Housing => 4
    case Food => 5
    case Transport => 6
    case Health => 7
    case Education => 8
    case Entertainment => 9
    case Shopping => 10
    case Bills => 11
    case OtherExpense => 12
  }

  // ---------------------------------------------------------------------
  // Label and icon tables

  function CategoryLabel(c: Category): string {
    match c
    case Salary => "Salário"
    case Freelance => "Freelance"
    case Investment => "Investimentos"
    case OtherIncome => "Outras Receitas"
    case Housing => "Moradia"
    case Food => "Alimentação"
    case Transport => "Transporte"
    case Health => "Saúde"
    case Education => "Educação"
    case Entertainment => "Entretenimento"
    case Shopping => "Compras"
    case Bills => "Contas"
    case OtherExpense => "Outras Despesas"
  }

  function CategoryIcon(c: Category): string {
    match c
    case Salary => "\U{1F4BC}"
    case Freelance => "\U{1F4BB}"
    case Investment => "\U{1F4C8}"
    case OtherIncome => "\U{1F4B0}"
    case Housing => "\U{1F3E0}"
    case Food => "\U{1F354}"
    case Transport => "\U{1F697}"
    case Health => "\U{1F3E5}"
    case Education => "\U{1F4DA}"
    case Entertainment => "\U{1F3AC}"
    case Shopping => "\U{1F6CD}\U{FE0F}"
    case Bills => "\U{1F4C4}"
    case OtherExpense => "\U{1F4B8}"
  }

  /** Both tables give every category a non-empty entry, and no two
      categories share a label or an icon, so a chart slice's label
      identifies its category. */
  lemma {:induction false} TablesTotalAndInjective(c: Category, d: Category)
    ensures CategoryLabel(c) != "" && CategoryIcon(c) != ""
    ensures c != d ==> CategoryLabel(c) != CategoryLabel(d)
    ensures c != d ==> CategoryIcon(c) != CategoryIcon(d)
  {
  }
}
