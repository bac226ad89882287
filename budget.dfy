/**
 * The budget panel of an itinerary (src/components/BudgetTracker.tsx): the
 * expense categories, the totals per category, the summary against the
 * estimate, and the form that adds an expense. Amounts are whole cents.
 */
module Budget {
  import opened Wrappers
  import opened Text
  import opened Alerts

  datatype CategoryInfo = CategoryInfo(id: string, name: string)

  datatype Expense = Expense(id: string, category: string, description: string, amount: int)

  /** The fixed category table; the last entry, `outro`, is the fallback. */
  const Categories: seq<CategoryInfo> := [
    CategoryInfo("hospedagem", "Hospedagem"),
    CategoryInfo("alimentacao", "Alimentação"),
    CategoryInfo("transporte", "Transporte"),
    CategoryInfo("atracao", "Atrações"),
    CategoryInfo("compras", "Compras"),
    CategoryInfo("outro", "Outro")]

  /** `CATEGORIES.find(c => c.id === id)`: the position of the first entry with that id, or `|table|`. */
  function FindCategory(table: seq<CategoryInfo>, id: string): (k: nat)
    ensures k <= |table|
    ensures k < |table| ==> table[k].id == id
    ensures forall j :: 0 <= j < k ==> table[j].id != id
  {
    if table == [] then 0 else if table[0].id == id then 0 else 1 + FindCategory(table[1..], id)
  }

  /** `getCategoryInfo`: the entry with the given id, or `outro` when there is none. */
  function GetCategoryInfo(id: string): (c: CategoryInfo)
    ensures (exists k :: 0 <= k < |Categories| && Categories[k].id == id) ==> c.id == id && c in Categories
    ensures (forall k :: 0 <= k < |Categories| ==> Categories[k].id != id) ==> c == Categories[5]
  {
    var k := FindCategory(Categories, id);
    if k < |Categories| then Categories[k] else Categories[5]
  }

  /** The categories that occur in a list of expenses. */
  function CategoriesOf(xs: seq<Expense>): set<string> {
    set i | 0 <= i < |xs| :: xs[i].category
  }

  /** The sum of the amounts of the expenses in category `c`. */
  function CategorySum(xs: seq<Expense>, c: string): int {
    if xs == [] then 0
    else CategorySum(xs[..|xs| - 1], c) + (if xs[|xs| - 1].category == c then xs[|xs| - 1].amount else 0)
  }

  /** The sum of all amounts. */
  function SumAmounts(xs: seq<Expense>): int {
    if xs == [] then 0 else SumAmounts(xs[..|xs| - 1]) + xs[|xs| - 1].amount
  }

  /**
   * `categoryTotals`, accumulated by `forEach`: each expense adds its
   * amount to its category's entry, created at 0 when missing.
   */
  method CategoryTotals(expenses: seq<Expense>) returns (totals: map<string, int>)
    ensures totals.Keys == CategoriesOf(expenses)
    ensures forall c :: c in totals ==> totals[c] == CategorySum(expenses, c)
  {
    totals := map[];
    var i := 0;
    while i < |expenses|
      invariant 0 <= i <= |expenses|
      invariant totals.Keys == CategoriesOf(expenses[..i])
      invariant forall c :: c in totals ==> totals[c] == CategorySum(expenses[..i], c)
    {
      var e := expenses[i];
      assert expenses[..i + 1][..i] == expenses[..i];
      assert CategoriesOf(expenses[..i + 1]) == CategoriesOf(expenses[..i]) + {e.category} by {
        assert forall j :: 0 <= j < i ==> expenses[..i + 1][j] == expenses[..i][j];
      }
      assert forall c :: CategorySum(expenses[..i + 1], c) == CategorySum(expenses[..i], c) + (if e.category == c then e.amount else 0);
      if e.category !in totals {
        AbsentSumsZero(expenses[..i], e.category);
      }
      var before := if e.category in totals then totals[e.category] else 0;
      totals := totals[e.category := before + e.amount];
      i := i + 1;
    }
    assert expenses[..i] == expenses;
  }

  /** The categories in the order they first occur, as the keys of the totals object are listed. */
  function KeyOrder(xs: seq<Expense>): seq<string> {
    if xs == [] then []
    else
      var d := KeyOrder(xs[..|xs| - 1]);
      if xs[|xs| - 1].category in d then d else d + [xs[|xs| - 1].category]
  }

  predicate Distinct(keys: seq<string>) {
    forall i, j :: 0 <= i < j < |keys| ==> keys[i] != keys[j]
  }

  /** The sum, over a list of categories, of each one's total. */
  function SumOver(keys: seq<string>, xs: seq<Expense>): int {
    if keys == [] then 0 else SumOver(keys[..|keys| - 1], xs) + CategorySum(xs, keys[|keys| - 1])
  }

  /** The key order lists each category present exactly once. */
  lemma {:induction false} KeyOrderLists(xs: seq<Expense>)
    ensures Distinct(KeyOrder(xs))
    ensures forall c :: c in KeyOrder(xs) <==> c in CategoriesOf(xs)
  {
    if xs != [] {
      var p := xs[..|xs| - 1];
      KeyOrderLists(p);
      assert CategoriesOf(xs) == CategoriesOf(p) + {xs[|xs| - 1].category} by {
        assert forall j :: 0 <= j < |p| ==> xs[j] == p[j];
      }
    }
  }

  /** A category that does not occur totals 0. */
  lemma {:induction false} AbsentSumsZero(xs: seq<Expense>, c: string)
    requires c !in CategoriesOf(xs)
    ensures CategorySum(xs, c) == 0
  {
    if xs != [] {
      var p := xs[..|xs| - 1];
      assert CategoriesOf(p) <= CategoriesOf(xs) by {
        assert forall j :: 0 <= j < |p| ==> xs[j] == p[j];
      }
      AbsentSumsZero(p, c);
    }
  }

  /** One more expense raises the sum over distinct categories by its amount when its category is among them. */
  lemma {:induction false} SumOverStep(keys: seq<string>, xs: seq<Expense>, e: Expense)
    requires Distinct(keys)
    ensures SumOver(keys, xs + [e]) == SumOver(keys, xs) + (if e.category in keys then e.amount else 0)
  {
    assert (xs + [e])[..|xs|] == xs;
    if keys != [] {
      var front := keys[..|keys| - 1];
      SumOverStep(front, xs, e);
      assert e.category in keys <==> e.category in front || e.category == keys[|keys| - 1];
      assert e.category == keys[|keys| - 1] ==> e.category !in front;
    }
  }

  /** The category totals add up to the sum of all expenses. */
  lemma {:induction false} TotalsAddUp(xs: seq<Expense>)
    ensures SumOver(KeyOrder(xs), xs) == SumAmounts(xs)
  {
    if xs != [] {
      var p := xs[..|xs| - 1];
      var e := xs[|xs| - 1];
      assert xs == p + [e];
      TotalsAddUp(p);
      var d := KeyOrder(p);
      KeyOrderLists(p);
      SumOverStep(d, p, e);
      if e.category !in d {
        assert (d + [e.category])[..|d|] == d;
        AbsentSumsZero(p, e.category);
      }
    }
  }

  /** The summary against the estimate, in cents; the percentage as an exact ratio. */
  function Remaining(estimated: int, spent: int): int {
    estimated - spent
  }

  function Percentage(estimated: int, spent: int): real {
    if estimated > 0 then (spent as real / estimated as real) * 100.0 else 0.0
  }

  predicate IsOverBudget(estimated: int, spent: int) {
    spent > estimated
  }

  datatype ProgressColor = ErrorColor | WarningColor | SuccessColor

  /** `getProgressColor`: over budget first, then above 80 %, else success. */
  function GetProgressColor(estimated: int, spent: int): ProgressColor {
    if IsOverBudget(estimated, spent) then ErrorColor
    else if Percentage(estimated, spent) > 80.0 then WarningColor
    else SuccessColor
  }

  lemma RatioAbove(s: real, e: real)
    requires e > 0.0
    ensures (s / e) * 100.0 > 80.0 <==> 100.0 * s > 80.0 * e
  {
    var r := s / e;
    assert r * e == s;
    if r * 100.0 > 80.0 {
      assert r > 0.8;
      assert r * e > 0.8 * e;
    } else {
      assert r <= 0.8;
      assert r * e <= 0.8 * e;
    }
  }

  /** The colour in integer terms: error exactly when over budget; warning exactly when spending exceeds 80 % of a positive estimate without passing it. */
  lemma ProgressColorCases(estimated: int, spent: int)
    ensures GetProgressColor(estimated, spent) == ErrorColor <==> spent > estimated
    ensures GetProgressColor(estimated, spent) == WarningColor <==> spent <= estimated && estimated > 0 && 100 * spent > 80 * estimated
    ensures Remaining(estimated, spent) < 0 <==> IsOverBudget(estimated, spent)
  {
    if estimated > 0 {
      RatioAbove(spent as real, estimated as real);
    }
  }

  /** The list shows the first five expenses, or all of them when fewer. */
  function RecentExpenses(xs: seq<Expense>): (shown: seq<Expense>)
    ensures |shown| == if |xs| < 5 then |xs| else 5
    ensures shown == xs[..|shown|]
  {
    if |xs| <= 5 then xs else xs[..5]
  }

  /** The `+ n mais gastos` line: present only beyond five, counting the hidden ones. */
  function MoreCount(xs: seq<Expense>): (more: Option<int>)
    ensures more.Some? <==> |xs| > 5
    ensures more.Some? ==> more.value == |xs| - |RecentExpenses(xs)| && more.value > 0
  {
    if |xs| > 5 then Some(|xs| - 5) else None
  }

  /** What is handed to `onAddExpense`. */
  datatype NewExpense = NewExpense(category: string, description: string, amount: int)

  const MissingFields: Alert := Alert("Atenção", "Preencha todos os campos")
  const InvalidAmount: Alert := Alert("Atenção", "Valor inválido")
  const AddFailure: string := "Não foi possível adicionar o gasto"

  /** The amount field's value in cents: its digits read as a number. */
  function AmountCents(amount: string): nat {
    DigitsValue(DigitsOf(amount))
  }

  /** The add-expense modal and its fields. */
  class ExpenseForm {
    var showAddModal: bool
    var selectedCategory: string
    var description: string
    var amount: string
    var loading: bool

    constructor ()
      ensures !showAddModal && selectedCategory == "" && description == "" && amount == "" && !loading
    {
      showAddModal := false;
      selectedCategory, description, amount := "", "", "";
      loading := false;
    }

    /**
     * `handleAddExpense`. Nothing is sent without a category, a
     * non-blank description, a non-empty amount and a positive number of
     * cents. A sent expense has the trimmed description. When the callback
     * succeeds the fields reset and the modal closes; otherwise they stay.
     * `failure` is the outcome of the callback (`None` for success, else
     * its error message); `alert` is the alert shown, if any.
     */
    method HandleAddExpense(failure: Option<Option<string>>) returns (sent: Option<NewExpense>, alert: Option<Alert>)
      modifies this
      ensures sent.Some? <==> old(selectedCategory) != "" && !IsBlank(old(description)) && old(amount) != "" && AmountCents(old(amount)) > 0
      ensures sent.Some? ==> sent.value == NewExpense(old(selectedCategory), Trim(old(description)), AmountCents(old(amount)))
      ensures sent.Some? && failure.None? ==>
        !showAddModal && selectedCategory == "" && description == "" && amount == "" && alert == None
      ensures !(sent.Some? && failure.None?) ==>
        showAddModal == old(showAddModal) && selectedCategory == old(selectedCategory)
        && description == old(description) && amount == old(amount)
      ensures old(selectedCategory) == "" || IsBlank(old(description)) || old(amount) == "" ==> alert == Some(MissingFields)
      ensures old(selectedCategory) != "" && !IsBlank(old(description)) && old(amount) != "" && AmountCents(old(amount)) == 0 ==>
        alert == Some(InvalidAmount)
      ensures sent.Some? && failure.Some? ==> alert == Some(Alert("Erro", OrDefault(failure.value, AddFailure)))
      ensures loading == (old(loading) && sent.None?) && !(sent.Some? && loading)
    {
      sent, alert := None, None;
      var category, text, typed := selectedCategory, description, amount;
      if category == "" || IsBlank(text) || typed == "" {
        alert := Some(MissingFields);
        return;
      }
      var cents := AmountCents(typed);
      if cents <= 0 {
        alert := Some(InvalidAmount);
        return;
      }
      var expense := NewExpense(category, Trim(text), cents);
      loading := true;
      sent := Some(expense);
      if failure.None? {
        showAddModal := false;
        selectedCategory, description, amount := "", "", "";
      } else {
        alert := Some(Alert("Erro", OrDefault(failure.value, AddFailure)));
      }
      loading := false;
    }
  }
}
