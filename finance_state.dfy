/** The entities of the finance store (src/context/FinanceContext.jsx): the
    expense record, the category, the notification, the store's state, the
    actions of the reducer and the values written to browser storage. */
module FinanceState {
  import opened Common

  /** One recorded expense. `id` and `createdAt` are set only by
      ADD_EXPENSE; rows brought in by IMPORT_EXPENSES carry neither (they are
      `undefined` in the source). `date` and `dueDate` are the stored date
      texts (`'YYYY-MM-DD'`); a `dueDate` counts only when it is a non-empty
      text. Amounts are JavaScript numbers, taken here as exact reals. */
  datatype Expense = Expense(
    id: Option<string>,
    description: string,
    amount: real,
    category: string,
    date: string,
    dueDate: Option<string>,
    notes: string,
    createdAt: Option<string>)

  /** A spending category of the fixed list. */
  datatype Category = Category(id: string, name: string, color: string, icon: string)

  /** A reminder shown to the user. */
  datatype Notification = Notification(
    id: string,
    kind: string,
    title: string,
    message: string,
    dueDate: Option<string>)

  /** The store's state: expense list, per-category budget, notifications and
      the (never changed) category list. */
  datatype State = State(
    expenses: seq<Expense>,
    budget: map<string, real>,
    notifications: seq<Notification>,
    categories: seq<Category>)

  /** The clock reading ADD_EXPENSE takes: `Date.now().toString()` becomes
      the id and `new Date().toISOString()` the creation time. */
  datatype Stamp = Stamp(id: string, createdAt: string)

  /** The LOAD_DATA payload: each part present overrides that part of the
      state. */
  datatype Snapshot = Snapshot(expenses: Option<seq<Expense>>, budget: Option<map<string, real>>)

  /** The seven action types of the reducer, plus any other type, which the
      reducer ignores. DELETE_EXPENSE carries the id of the row the user
      picked, which is `undefined` (`None`) for an imported row. */
  datatype Action =
    | AddExpense(payload: Expense, stamp: Stamp)
    | DeleteExpense(target: Option<string>)
    | UpdateBudget(changes: map<string, real>)
    | LoadData(snapshot: Snapshot)
    | ImportExpenses(rows: seq<Expense>)
    | AddNotification(notification: Notification)
    | RemoveNotification(notificationId: string)
    | Other(kind: string)

  /** What `localStorage.setItem` holds under a key: the JSON text of an
      expense list or of a budget map (JSON's round trip is taken as exact). */
  datatype Stored = ExpensesJson(savedExpenses: seq<Expense>) | BudgetJson(savedBudget: map<string, real>)

  const ExpensesKey: string := "expenses"
  const BudgetKey: string := "budget"

  /** The built-in category list. */
  const DefaultCategories: seq<Category> := [
    Category("alimentacao", "Alimentação", "#EF4444", "🍽️"),
    Category("transporte", "Transporte", "#3B82F6", "🚗"),
    Category("moradia", "Moradia", "#10B981", "🏠"),
    Category("saude", "Saúde", "#F59E0B", "🏥"),
    Category("educacao", "Educação", "#8B5CF6", "📚"),
    Category("lazer", "Lazer", "#EC4899", "🎮"),
    Category("outros", "Outros", "#6B7280", "📦")
  ]

  /** The budget the store starts with, before anything is loaded. */
  const InitialBudget: map<string, real> := map[
    "alimentacao" := 800.0,
    "transporte" := 400.0,
    "moradia" := 1200.0,
    "saude" := 300.0,
    "educacao" := 200.0,
    "lazer" := 250.0,
    "outros" := 150.0
  ]

  const InitialState: State := State([], InitialBudget, [], DefaultCategories)

  /** The category ids, in list order. */
  function CategoryIdList(categories: seq<Category>): (ids: seq<string>)
    ensures |ids| == |categories|
    ensures forall i :: 0 <= i < |ids| ==> ids[i] == categories[i].id
  {
    seq(|categories|, i requires 0 <= i < |categories| => categories[i].id)
  }

  /** The set of category ids. */
  function CategoryIds(categories: seq<Category>): set<string> {
    set c | c in categories :: c.id
  }

  /** Storage holds an expense list under "expenses" and a budget under
      "budget", as the store itself writes them. */
  predicate WellTyped(storage: map<string, Stored>) {
    && (ExpensesKey in storage ==> storage[ExpensesKey].ExpensesJson?)
    && (BudgetKey in storage ==> storage[BudgetKey].BudgetJson?)
  }
}
