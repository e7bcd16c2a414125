/** The form schemas `financialItemSchema` and `budgetSchema` as validation
    functions. A payload is what the schema sees after zod's coercion: a
    field is None when it is missing, the amount is None when coercion gave
    NaN, and the date is None when coercion gave an invalid date. Every
    failing field contributes one issue, in the schema's field order. */
module Schemas {
  import opened Types

  datatype ItemPayload = ItemPayload(
    name: Option<string>,
    amount: Option<int>,
    itemType: Option<string>,
    category: Option<string>,
    date: Option<int>,
    description: Option<string>,
    tags: Option<seq<string>>,
    recurrence: Option<string>)

  datatype BudgetPayload = BudgetPayload(
    name: Option<string>,
    category: Option<string>,
    amount: Option<int>,
    period: Option<string>)

  datatype Field =
    | NameField | AmountField | TypeField | CategoryField | DateField
    | DescriptionField | RecurrenceField | PeriodField

  datatype Reason = Required | TooShort | TooLong | NotPositive | NotANumber | InvalidOption | InvalidDate

  datatype Issue = Issue(field: Field, reason: Reason)

  /** Zod's `safeParse` outcome: the parsed data, or every issue found. */
  datatype Validated<T> = Accepted(value: T) | Rejected(issues: seq<Issue>)

  /** `FinancialItemFormData`: the parsed item form, recurrence defaulted. */
  datatype ItemForm = ItemForm(
    name: string,
    amount: int,
    itemType: ItemType,
    category: Category,
    date: int,
    description: Option<string>,
    tags: Option<seq<string>>,
    recurrence: Recurrence)

  datatype BudgetForm = BudgetForm(name: string, category: Category, amount: int, period: BudgetPeriod)

  // ---------------------------------------------------------------------
  // One check per field: None when the field passes, else why it fails

  /** `z.string().min(1).max(100)`; the length is not trimmed first. */
  function NameCheck(name: Option<string>): Option<Reason> {
    match name
    case None => Some(Required)
    case Some(s) => if |s| < 1 then Some(TooShort) else if |s| > 100 then Some(TooLong) else None
  }

  /** `z.coerce.number().positive()`. */
  function AmountCheck(amount: Option<int>): Option<Reason> {
    match amount
    case None => Some(NotANumber)
    case Some(a) => if a <= 0 then Some(NotPositive) else None
  }

  /** `z.enum([...])`: a missing value is reported as required, any other
      string outside the list as an invalid option. */
  function EnumCheck<E>(value: Option<string>, parse: string -> Option<E>): Option<Reason> {
    match value
    case None => Some(Required)
    case Some(s) => if parse(s).None? then Some(InvalidOption) else None
  }

  function DateCheck(date: Option<int>): Option<Reason> {
    if date.None? then Some(InvalidDate) else None
  }

  /** `z.string().max(500).optional()`. */
  function DescriptionCheck(description: Option<string>): Option<Reason> {
    if description.Some? && |description.value| > 500 then Some(TooLong) else None
  }

  /** `z.enum([...]).optional().default('none')`: absence is fine. */
  function RecurrenceCheck(recurrence: Option<string>): Option<Reason> {
    if recurrence.Some? && ParseRecurrence(recurrence.value).None? then Some(InvalidOption) else None
  }

  function IssueIf(field: Field, check: Option<Reason>): seq<Issue> {
    if check.Some? then [Issue(field, check.value)] else []
  }

  // ---------------------------------------------------------------------
  // financialItemSchema

  function ItemCheck(p: ItemPayload, field: Field): Option<Reason> {
    match field
    case NameField => NameCheck(p.name)
    case AmountField => AmountCheck(p.amount)
    case TypeField => EnumCheck(p.itemType, ParseType)
    case CategoryField => EnumCheck(p.category, ParseCategory)
    case DateField => DateCheck(p.date)
    case DescriptionField => DescriptionCheck(p.description)
    case RecurrenceField => RecurrenceCheck(p.recurrence)
    case PeriodField => None
  }

  const ItemFields: seq<Field> :=
    [NameField, AmountField, TypeField, CategoryField, DateField, DescriptionField, RecurrenceField]

  function ItemIssues(p: ItemPayload): seq<Issue> {
    IssueIf(NameField, ItemCheck(p, NameField))
    + IssueIf(AmountField, ItemCheck(p, AmountField))
    + IssueIf(TypeField, ItemCheck(p, TypeField))
    + IssueIf(CategoryField, ItemCheck(p, CategoryField))
    + IssueIf(DateField, ItemCheck(p, DateField))
    + IssueIf(DescriptionField, ItemCheck(p, DescriptionField))
    + IssueIf(RecurrenceField, ItemCheck(p, RecurrenceField))
  }

  /** The item rules stated directly: a name of 1 to 100 characters, a
      positive amount, a known type and category (independently of each
      other), a valid date, a description of at most 500 characters when
      present, and a known recurrence when present. Tags are free. */
  predicate ValidItem(p: ItemPayload) {
    && p.name.Some? && 1 <= |p.name.value| <= 100
    && p.amount.Some? && p.amount.value > 0
    && p.itemType.Some? && p.itemType.value in {"income", "expense"}
    && p.category.Some? && ParseCategory(p.category.value).Some?
    && p.date.Some?
    && (p.description.None? || |p.description.value| <= 500)
    && (p.recurrence.None? || p.recurrence.value in {"none", "daily", "weekly", "monthly", "yearly"})
  }

  /** `financialItemSchema.safeParse`. */
  function ValidateItem(p: ItemPayload): (r: Validated<ItemForm>)
    ensures r.Accepted? <==> ValidItem(p)
    ensures r.Accepted? ==>
      && r.value.name == p.name.value && r.value.amount == p.amount.value
      && TypeKey(r.value.itemType) == p.itemType.value
      && CategoryKey(r.value.category) == p.category.value
      && r.value.date == p.date.value
      && r.value.description == p.description && r.value.tags == p.tags
      && r.value.recurrence == if p.recurrence.None? then NoRecurrence else ParseRecurrence(p.recurrence.value).value
    ensures r.Rejected? ==> |r.issues| > 0
    ensures r.Rejected? ==> forall i :: 0 <= i < |r.issues| ==> ItemCheck(p, r.issues[i].field) == Some(r.issues[i].reason)
    ensures r.Rejected? ==> forall f :: f in ItemFields && ItemCheck(p, f).Some? ==>
      exists i :: 0 <= i < |r.issues| && r.issues[i].field == f
  {
    var issues := ItemIssues(p);
    if issues == [] then
      Accepted(ItemForm(p.name.value, p.amount.value, ParseType(p.itemType.value).value,
                        ParseCategory(p.category.value).value, p.date.value, p.description,
                        p.tags, if p.recurrence.None? then NoRecurrence else ParseRecurrence(p.recurrence.value).value))
    else
      ItemIssuesComplete(p);
      Rejected(issues)
  }

  /** Every failing field is reported and every report names a failing
      field with its reason; there are no reports exactly when no field
      fails. */
  lemma ItemIssuesComplete(p: ItemPayload)
    ensures forall i :: 0 <= i < |ItemIssues(p)| ==> ItemCheck(p, ItemIssues(p)[i].field) == Some(ItemIssues(p)[i].reason)
    ensures forall f :: f in ItemFields && ItemCheck(p, f).Some? ==>
      exists i :: 0 <= i < |ItemIssues(p)| && ItemIssues(p)[i].field == f
    ensures ItemIssues(p) == [] <==> forall f :: f in ItemFields ==> ItemCheck(p, f).None?
  {
    var parts := [IssueIf(NameField, ItemCheck(p, NameField)),
                  IssueIf(AmountField, ItemCheck(p, AmountField)),
                  IssueIf(TypeField, ItemCheck(p, TypeField)),
                  IssueIf(CategoryField, ItemCheck(p, CategoryField)),
                  IssueIf(DateField, ItemCheck(p, DateField)),
                  IssueIf(DescriptionField, ItemCheck(p, DescriptionField)),
                  IssueIf(RecurrenceField, ItemCheck(p, RecurrenceField))];
    assert ItemIssues(p) == parts[0] + parts[1] + parts[2] + parts[3] + parts[4] + parts[5] + parts[6];
    forall i | 0 <= i < |ItemIssues(p)|
      ensures ItemCheck(p, ItemIssues(p)[i].field) == Some(ItemIssues(p)[i].reason)
    {
      assert ItemIssues(p)[i] in ItemIssues(p);
    }
    forall f | f in ItemFields && ItemCheck(p, f).Some?
      ensures exists i :: 0 <= i < |ItemIssues(p)| && ItemIssues(p)[i].field == f
    {
      var iss := Issue(f, ItemCheck(p, f).value);
      assert iss in ItemIssues(p);
    }
  }

  // ---------------------------------------------------------------------
  // budgetSchema

  function BudgetCheck(p: BudgetPayload, field: Field): Option<Reason> {
    match field
    case NameField => NameCheck(p.name)
    case CategoryField => EnumCheck(p.category, ParseCategory)
    case AmountField => AmountCheck(p.amount)
    case PeriodField => EnumCheck(p.period, ParsePeriod)
    case _ => None
  }

  const BudgetFields: seq<Field> := [NameField, CategoryField, AmountField, PeriodField]

  function BudgetIssues(p: BudgetPayload): seq<Issue> {
    IssueIf(NameField, BudgetCheck(p, NameField))
    + IssueIf(CategoryField, BudgetCheck(p, CategoryField))
    + IssueIf(AmountField, BudgetCheck(p, AmountField))
    + IssueIf(PeriodField, BudgetCheck(p, PeriodField))
  }

  /** The budget rules: a name of 1 to 100 characters, a known category, a
      positive amount and a monthly or yearly period. */
  predicate ValidBudget(p: BudgetPayload) {
    && p.name.Some? && 1 <= |p.name.value| <= 100
    && p.category.Some? && ParseCategory(p.category.value).Some?
    && p.amount.Some? && p.amount.value > 0
    && p.period.Some? && p.period.value in {"monthly", "yearly"}
  }

  /** `budgetSchema.safeParse`. */
  function ValidateBudget(p: BudgetPayload): (r: Validated<BudgetForm>)
    ensures r.Accepted? <==> ValidBudget(p)
    ensures r.Accepted? ==>
      && r.value.name == p.name.value && CategoryKey(r.value.category) == p.category.value
      && r.value.amount == p.amount.value && PeriodKey(r.value.period) == p.period.value
    ensures r.Rejected? ==> |r.issues| > 0
    ensures r.Rejected? ==> forall i :: 0 <= i < |r.issues| ==> BudgetCheck(p, r.issues[i].field) == Some(r.issues[i].reason)
    ensures r.Rejected? ==> forall f :: f in BudgetFields && BudgetCheck(p, f).Some? ==>
      exists i :: 0 <= i < |r.issues| && r.issues[i].field == f
  {
    var issues := BudgetIssues(p);
    if issues == [] then
      Accepted(BudgetForm(p.name.value, ParseCategory(p.category.value).value,
                          p.amount.value, ParsePeriod(p.period.value).value))
    else
      BudgetIssuesComplete(p);
      Rejected(issues)
  }

  /** The budget's issues, like the item's: every failing field is
      reported, and every report names a failing field with its reason. */
  lemma BudgetIssuesComplete(p: BudgetPayload)
    ensures forall i :: 0 <= i < |BudgetIssues(p)| ==> BudgetCheck(p, BudgetIssues(p)[i].field) == Some(BudgetIssues(p)[i].reason)
    ensures forall f :: f in BudgetFields && BudgetCheck(p, f).Some? ==>
      exists i :: 0 <= i < |BudgetIssues(p)| && BudgetIssues(p)[i].field == f
  {
    forall i | 0 <= i < |BudgetIssues(p)|
      ensures BudgetCheck(p, BudgetIssues(p)[i].field) == Some(BudgetIssues(p)[i].reason)
    {
      assert BudgetIssues(p)[i] in BudgetIssues(p);
    }
    forall f | f in BudgetFields && BudgetCheck(p, f).Some?
      ensures exists i :: 0 <= i < |BudgetIssues(p)| && BudgetIssues(p)[i].field == f
    {
      var iss := Issue(f, BudgetCheck(p, f).value);
      assert iss in BudgetIssues(p);
    }
  }

  // ---------------------------------------------------------------------
  // Messages and consequences

  /** The Portuguese messages the schemas set; None where zod's own default
      message applies. */
  function Message(issue: Issue): (m: Option<string>)
    ensures m.Some? ==> |m.value| > 0
  {
    match issue
    case Issue(NameField, Required) => None
    case Issue(NameField, TooShort) => Some("Nome é obrigatório.")
    case Issue(NameField, TooLong) => Some("Nome deve ter no máximo 100 caracteres.")
    case Issue(AmountField, NotPositive) => Some("Valor deve ser um número positivo.")
    case Issue(TypeField, Required) => Some("Tipo é obrigatório.")
    case Issue(CategoryField, Required) => Some("Categoria é obrigatória.")
    case Issue(DescriptionField, TooLong) => Some("Descrição deve ter no máximo 500 caracteres.")
    case Issue(PeriodField, Required) => Some("Período é obrigatório.")
    case _ => None
  }

  /** The name rule at its edges: the empty name and a name of 101
      characters are rejected for the name, one of 100 characters passes;
      blanks count, as nothing is trimmed. */
  lemma NameBoundaries(p: ItemPayload)
    ensures p.name == Some("") ==> ItemCheck(p, NameField) == Some(TooShort)
    ensures p.name.Some? && |p.name.value| == 101 ==> ItemCheck(p, NameField) == Some(TooLong)
    ensures p.name.Some? && 1 <= |p.name.value| <= 100 ==> ItemCheck(p, NameField) == None
    ensures ItemCheck(p.(name := Some(" ")), NameField) == None
  {
  }

  /** Zero and negative amounts are rejected; the budget shares the rule. */
  lemma AmountMustBePositive(p: ItemPayload, b: BudgetPayload)
    requires p.amount.Some? && p.amount.value <= 0
    requires b.amount.Some? && b.amount.value <= 0
    ensures ValidateItem(p).Rejected? && Issue(AmountField, NotPositive) in ValidateItem(p).issues
    ensures ValidateBudget(b).Rejected?
  {
    ItemIssuesComplete(p);
  }

  /** The category is not checked against the type: an income payload with
      the expense category 'food' is accepted, recurrence defaulting to
      'none'. */
  lemma CategoryIndependentOfType(p: ItemPayload)
    requires p == ItemPayload(Some("Mercado"), Some(1500), Some("income"), Some("food"),
                              Some(0), None, None, None)
    ensures ValidateItem(p) == Accepted(ItemForm("Mercado", 1500, Income, Food, 0, None, None, NoRecurrence))
    ensures Food !in CategoriesOf(Income)
  {
  }
}
