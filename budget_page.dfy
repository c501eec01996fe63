/** The budget page (src/pages/Budget.jsx): one row per category with its
    budget, spending, usage and over-budget flag; the summary totals and the
    remaining balance; and the inline editor that changes one category's
    budget. `parseNumber` stands for `parseFloat` (`None` is NaN) and
    `show` for `Number.prototype.toString`. */
module BudgetPage {
  import opened Common
  import opened Sums
  import opened FinanceState
  import opened FinanceReducer
  import opened FinanceViews
  import opened BudgetProgress
  import FinanceProvider

  /** What one category's row shows. */
  datatype CategoryRow = CategoryRow(budgetAmount: real, expenseAmount: real, percentage: real,
                                     isOverBudget: bool, barWidth: real)

  /** The row of category `id`; a category missing from either map counts
      as 0 there. */
  function RowFor(budget: map<string, real>, byCategory: map<string, real>, id: string): (r: CategoryRow)
    ensures r.budgetAmount == Lookup(budget, id) && r.expenseAmount == Lookup(byCategory, id)
    ensures r.budgetAmount <= 0.0 ==> r.percentage == 0.0
    ensures r.budgetAmount > 0.0 ==> r.percentage * r.budgetAmount == r.expenseAmount * 100.0
    ensures r.isOverBudget <==> r.budgetAmount > 0.0 && r.expenseAmount > r.budgetAmount
    ensures r.barWidth <= 100.0
    ensures r.percentage <= 100.0 ==> r.barWidth == r.percentage
    ensures r.barWidth == BarWidth(r.percentage)
  {
    var budgetAmount := Lookup(budget, id);
    var expenseAmount := Lookup(byCategory, id);
    var percentage := UsagePercent(expenseAmount, budgetAmount);
    OverHundredIff(expenseAmount, budgetAmount);
    CategoryRow(budgetAmount, expenseAmount, percentage, percentage > 100.0, BarWidth(percentage))
  }

  /** "Saldo Restante": total budget minus total spending. */
  ghost function Balance(budget: map<string, real>, byCategory: map<string, real>): real {
    SumValues(budget) - SumValues(byCategory)
  }

  /** The balance is shown green exactly when it is not negative; with a
      positive total budget that is exactly when the progress card shows no
      overrun warning. */
  lemma BalanceColourMatchesProgress(budget: map<string, real>, byCategory: map<string, real>)
    requires SumValues(budget) > 0.0
    ensures Balance(budget, byCategory) >= 0.0 <==> ProgressCard(budget, byCategory).overrun.None?
  {
  }

  /** With the built-in categories, the page's spending total is the
      month's spending in those categories; each expense counts once. */
  lemma TotalExpensesIsMonthSpending(monthly: seq<Expense>)
    ensures SumValues(CategoryTotals(monthly, DefaultCategories))
         == SumAmounts(Filter(InCategories(CategoryIdList(DefaultCategories)), monthly))
  {
    DefaultCategoriesDistinct();
    TotalOfCategoryTotals(monthly, DefaultCategories);
  }

  /** The inline editor's state. */
  class Editor {
    var editingCategory: Option<string>
    var editValue: string

    constructor ()
      ensures editingCategory == None && editValue == ""
    {
      editingCategory, editValue := None, "";
    }

    /** `handleEdit`: start editing a category, showing its amount. */
    method HandleEdit(categoryId: string, currentValue: real, show: real -> string)
      modifies this
      ensures editingCategory == Some(categoryId) && editValue == show(currentValue)
    {
      editingCategory := Some(categoryId);
      editValue := show(currentValue);
    }

    /** Typing in the field replaces the edit text; the edited category
        stays. */
    method HandleType(text: string)
      modifies this
      ensures editValue == text && editingCategory == old(editingCategory)
    {
      editValue := text;
    }

    /** `handleSave`: UPDATE_BUDGET with the one edited key, holding the
        parsed text or 0; then the editor closes. Only that key changes. */
    method HandleSave(store: FinanceProvider.Store, categoryId: string, parseNumber: string -> Option<real>)
      modifies this, store
      ensures var change := map[categoryId := ParseOrZero(parseNumber, old(editValue))];
        && store.Current() == Reduce(old(store.Current()), UpdateBudget(change))
        && store.storage == Persist(old(store.storage), UpdateBudget(change), store.Current())
      ensures store.budget == old(store.budget)[categoryId := ParseOrZero(parseNumber, old(editValue))]
      ensures editingCategory == None && editValue == ""
    {
      var newValue := ParseOrZero(parseNumber, editValue);
      store.Dispatch(UpdateBudget(map[categoryId := newValue]));
      editingCategory := None;
      editValue := "";
    }

    /** `handleCancel`: the editor closes and nothing is dispatched. */
    method HandleCancel()
      modifies this
      ensures editingCategory == None && editValue == ""
    {
      editingCategory := None;
      editValue := "";
    }
  }

  /** Editing a category and saving without typing writes back the amount
      the row showed, when reading a number back from its text gives the
      same number; a category without a budget gets the key with 0. */
  lemma SaveUnchangedEdit(s: State, id: string, parseNumber: string -> Option<real>, show: real -> string)
    requires parseNumber(show(Lookup(s.budget, id))) == Some(Lookup(s.budget, id))
    ensures var saved := ParseOrZero(parseNumber, show(Lookup(s.budget, id)));
      Reduce(s, UpdateBudget(map[id := saved])).budget == s.budget[id := Lookup(s.budget, id)]
    ensures id in s.budget ==>
      Reduce(s, UpdateBudget(map[id := ParseOrZero(parseNumber, show(s.budget[id]))])).budget == s.budget
  {
    var v := Lookup(s.budget, id);
    assert s.budget + map[id := v] == s.budget[id := v];
    if id in s.budget {
      assert s.budget[id := v] == s.budget;
    }
  }
}
