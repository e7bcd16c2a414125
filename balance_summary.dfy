/** The three totals of the balance cards and the sign rule of the
    balance card. */
module BalanceSummary {
  import opened Types
  import opened FinancialItemsHook

  /** `reduce((sum, item) => sum + item.amount, acc)`: the running sum,
      item by item from the left. */
  function FoldAmounts(acc: int, items: seq<FinancialItem>): int
    decreases items
  {
    if items == [] then acc else FoldAmounts(acc + items[0].amount, items[1..])
  }

  /** The reference total: the sum of the amounts. */
  function AmountSum(items: seq<FinancialItem>): int {
    if items == [] then 0 else items[0].amount + AmountSum(items[1..])
  }

  /** The running sum ends at its start value plus the amounts' sum. */
  lemma {:induction false} FoldIsSum(acc: int, items: seq<FinancialItem>)
    ensures FoldAmounts(acc, items) == acc + AmountSum(items)
    decreases items
  {
    if items != [] {
      FoldIsSum(acc + items[0].amount, items[1..]);
    }
  }

  /** Sums add up over concatenation. */
  lemma {:induction false} AmountSumConcat(a: seq<FinancialItem>, b: seq<FinancialItem>)
    ensures AmountSum(a + b) == AmountSum(a) + AmountSum(b)
  {
    if a == [] {
      assert a + b == b;
    } else {
      assert (a + b)[1..] == a[1..] + b;
      AmountSumConcat(a[1..], b);
    }
  }

  /** `reduce((sum, item) => sum + item.amount, 0)`: the sum of the
      amounts, 0 for an empty list. */
  function AmountTotal(items: seq<FinancialItem>): (total: int)
    ensures total == AmountSum(items)
    ensures items == [] ==> total == 0
  {
    FoldIsSum(0, items);
    FoldAmounts(0, items)
  }

  /** `totalIncome`, over the income list. */
  function TotalIncome(incomes: seq<FinancialItem>): int {
    AmountTotal(incomes)
  }

  /** `totalExpenses`, over the expense list. */
  function TotalExpenses(expenses: seq<FinancialItem>): int {
    AmountTotal(expenses)
  }

  /** `netBalance = totalIncome - totalExpenses`: the difference of the two
      sums, at least zero exactly when the incomes cover the expenses. */
  function NetBalance(incomes: seq<FinancialItem>, expenses: seq<FinancialItem>): (balance: int)
    ensures balance == AmountSum(incomes) - AmountSum(expenses)
    ensures balance >= 0 <==> AmountSum(incomes) >= AmountSum(expenses)
  {
    TotalIncome(incomes) - TotalExpenses(expenses)
  }

  /** How the balance card shows a balance: the positive style and the
      "Saldo positivo!" note exactly when it is at least zero. */
  datatype Tone = Positive | Negative

  function BalanceTone(netBalance: int): (t: Tone)
    ensures t == Positive <==> netBalance >= 0
  {
    if netBalance >= 0 then Positive else Negative
  }

  function BalanceNote(netBalance: int): (note: string)
    ensures note == "Saldo positivo!" <==> BalanceTone(netBalance) == Positive
  {
    if netBalance >= 0 then "Saldo positivo!" else "Saldo negativo."
  }

  /** An item's contribution to the balance: its amount, negated for an
      expense. */
  function Signed(x: FinancialItem): int {
    if x.itemType == Income then x.amount else -x.amount
  }

  function SignedSum(items: seq<FinancialItem>): int {
    if items == [] then 0 else Signed(items[0]) + SignedSum(items[1..])
  }

  /** The dashboard's balance over one list, split by the hook, is the
      signed sum of that list: every income counts once positively and
      every expense once negatively. */
  lemma {:induction false} NetBalanceOfSplit(items: seq<FinancialItem>)
    ensures NetBalance(Incomes(items), Expenses(items)) == SignedSum(items)
  {
    if items != [] {
      NetBalanceOfSplit(items[1..]);
      var x := items[0];
      if x.itemType == Income {
        assert Incomes(items) == [x] + Incomes(items[1..]);
        assert Expenses(items) == Expenses(items[1..]);
      } else {
        assert Incomes(items) == Incomes(items[1..]);
        assert Expenses(items) == [x] + Expenses(items[1..]);
      }
    }
  }

  /** With the positive amounts the form enforces, an empty income list is
      the only way to a zero income total, and a list of incomes alone
      never shows a negative balance. */
  lemma {:induction false} PositiveAmounts(items: seq<FinancialItem>)
    requires forall i :: 0 <= i < |items| ==> items[i].amount > 0
    ensures AmountSum(items) >= 0
    ensures AmountSum(items) == 0 <==> items == []
    ensures BalanceTone(NetBalance(items, [])) == Positive
  {
    if items != [] {
      PositiveAmounts(items[1..]);
    }
  }
}
