/** The finance store as the provider holds it (src/context/FinanceContext.jsx):
    the current state, browser storage as a field, the mount-time load, and
    `dispatch`, which replaces the state and writes through to storage. */
module FinanceProvider {
  import opened Common
  import opened FinanceState
  import opened FinanceReducer

  class Store {
    var expenses: seq<Expense>
    var budget: map<string, real>
    var notifications: seq<Notification>
    var categories: seq<Category>
    /** `localStorage`, by key. */
    var storage: map<string, Stored>

    /** The state the reducer sees. */
    function Current(): State
      reads this
    {
      State(expenses, budget, notifications, categories)
    }

    /** Mounting the provider over `saved` storage: the built-in state, then
        LOAD_DATA with the saved list (or `[]`) and the saved budget (or the
        built-in one) when storage holds either key. */
    constructor (saved: map<string, Stored>)
      requires WellTyped(saved)
      ensures Current() == Startup(saved)
      ensures storage == saved
      ensures Mirrors(Current(), storage)
    {
      expenses, budget, notifications, categories := [], InitialBudget, [], DefaultCategories;
      storage := saved;
      new;
      if ExpensesKey in saved || BudgetKey in saved {
        var savedExpenses := if ExpensesKey in saved then saved[ExpensesKey].savedExpenses else [];
        var savedBudget := if BudgetKey in saved then saved[BudgetKey].savedBudget else InitialBudget;
        Dispatch(LoadData(Snapshot(Some(savedExpenses), Some(savedBudget))));
      }
      StartupMirrors(saved);
    }

    /** `dispatch(action)`: the reducer's switch, with the storage write each
        mutating case makes. */
    method Dispatch(action: Action)
      modifies this
      ensures Current() == Reduce(old(Current()), action)
      ensures storage == Persist(old(storage), action, Current())
      ensures old(Mirrors(Current(), storage)) && !action.LoadData? ==> Mirrors(Current(), storage)
    {
      ghost var before, storedBefore := Current(), storage;
      match action {
        case AddExpense(payload, stamp) =>
          var newExpense := Stamped(payload, stamp);
          var updatedExpenses := expenses + [newExpense];
          storage := storage[ExpensesKey := ExpensesJson(updatedExpenses)];
          expenses := updatedExpenses;
        case DeleteExpense(target) =>
          var filteredExpenses := Filter(IdDiffers(target), expenses);
          storage := storage[ExpensesKey := ExpensesJson(filteredExpenses)];
          expenses := filteredExpenses;
        case UpdateBudget(changes) =>
          var updatedBudget := budget + changes;
          storage := storage[BudgetKey := BudgetJson(updatedBudget)];
          budget := updatedBudget;
        case LoadData(snapshot) =>
          expenses := snapshot.expenses.GetOr(expenses);
          budget := snapshot.budget.GetOr(budget);
        case ImportExpenses(rows) =>
          var importedExpenses := expenses + rows;
          storage := storage[ExpensesKey := ExpensesJson(importedExpenses)];
          expenses := importedExpenses;
        case AddNotification(n) =>
          notifications := notifications + [n];
        case RemoveNotification(target) =>
          notifications := Filter(NotificationIdDiffers(target), notifications);
        case Other(_) =>
      }
      if Mirrors(before, storedBefore) && !action.LoadData? {
        DispatchKeepsMirror(before, storedBefore, action);
      }
    }
  }
}
