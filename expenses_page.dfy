/** The expenses page's category filter (src/pages/Expenses.jsx). */
module ExpensesPage {
  import opened Common
  import opened FinanceState
  import opened FinanceViews

  /** The filter's starting value, which shows every category. */
  const AllCategories: string := "all"

  /** `filteredExpenses`: everything for "all", otherwise the expenses of
      that category. */
  function FilteredExpenses(expenses: seq<Expense>, filter: string): (r: seq<Expense>)
    ensures filter == AllCategories ==> r == expenses
    ensures filter != AllCategories ==> forall e :: e in r <==> e in expenses && e.category == filter
    ensures |r| <= |expenses|
  {
    if filter == AllCategories then expenses else Filter(InCategory(filter), expenses)
  }

  /** The filter keeps the list's order: filtering a list made of two parts
      gives the filtered first part followed by the filtered second part. */
  lemma FilteredKeepsOrder(a: seq<Expense>, b: seq<Expense>, filter: string)
    ensures FilteredExpenses(a + b, filter) == FilteredExpenses(a, filter) + FilteredExpenses(b, filter)
  {
    if filter != AllCategories {
      FilterConcat(InCategory(filter), a, b);
    }
  }

  /** With a category selected, the shown list is exactly the positions of
      that category, increasing. */
  lemma FilteredPositions(expenses: seq<Expense>, filter: string) returns (shown: seq<nat>)
    requires filter != AllCategories
    ensures var r := FilteredExpenses(expenses, filter);
      && |shown| == |r|
      && (forall j :: 0 <= j < |shown| ==> shown[j] < |expenses| && r[j] == expenses[shown[j]])
      && (forall j, k :: 0 <= j < k < |shown| ==> shown[j] < shown[k])
      && (forall i :: 0 <= i < |expenses| ==> (expenses[i].category == filter <==> i in shown))
  {
    shown := FilterIndices(InCategory(filter), expenses);
  }
}
