/** `financeReducer` and its write-through to browser storage
    (src/context/FinanceContext.jsx), as pure functions, with the properties
    each action promises and the storage invariant they keep. */
module FinanceReducer {
  import opened Common
  import opened FinanceState

  /** The expense ADD_EXPENSE stores: the payload with a fresh id and
      creation time written over whatever the payload carried. */
  function Stamped(payload: Expense, stamp: Stamp): (e: Expense)
    ensures e.id == Some(stamp.id) && e.createdAt == Some(stamp.createdAt)
    ensures e.description == payload.description && e.amount == payload.amount
    ensures e.category == payload.category && e.date == payload.date
    ensures e.dueDate == payload.dueDate && e.notes == payload.notes
  {
    payload.(id := Some(stamp.id), createdAt := Some(stamp.createdAt))
  }

  /** `expense => expense.id !== target`. */
  function IdDiffers(target: Option<string>): Expense -> bool {
    (e: Expense) => e.id != target
  }

  /** `n => n.id !== target`. */
  function NotificationIdDiffers(target: string): Notification -> bool {
    (n: Notification) => n.id != target
  }

  /** The state the reducer returns for `action`. No action changes the
      category list; only the notification actions touch notifications and
      only UPDATE_BUDGET and LOAD_DATA touch the budget. */
  function Reduce(s: State, action: Action): (r: State)
    ensures r.categories == s.categories
    ensures !action.AddNotification? && !action.RemoveNotification? ==> r.notifications == s.notifications
    ensures !action.UpdateBudget? && !action.LoadData? ==> r.budget == s.budget
    ensures action.UpdateBudget? || action.AddNotification? || action.RemoveNotification? ==> r.expenses == s.expenses
  {
    match action
    case AddExpense(payload, stamp) => s.(expenses := s.expenses + [Stamped(payload, stamp)])
    case DeleteExpense(target) => s.(expenses := Filter(IdDiffers(target), s.expenses))
    case UpdateBudget(changes) => s.(budget := s.budget + changes)
    case LoadData(snapshot) =>
      s.(expenses := snapshot.expenses.GetOr(s.expenses), budget := snapshot.budget.GetOr(s.budget))
    case ImportExpenses(rows) => s.(expenses := s.expenses + rows)
    case AddNotification(n) => s.(notifications := s.notifications + [n])
    case RemoveNotification(target) =>
      s.(notifications := Filter(NotificationIdDiffers(target), s.notifications))
    case Other(_) => s
  }

  /** Storage after the reducer handled `action` and produced `after`: the
      expense actions write the new list, UPDATE_BUDGET the new budget, the
      other actions write nothing. Only the two keys of the store are ever
      written, and no key is removed. */
  function Persist(storage: map<string, Stored>, action: Action, after: State): (r: map<string, Stored>)
    ensures storage.Keys <= r.Keys <= storage.Keys + {ExpensesKey, BudgetKey}
    ensures forall k :: k in storage && k != ExpensesKey && k != BudgetKey ==> r[k] == storage[k]
  {
    match action
    case AddExpense(_, _) => storage[ExpensesKey := ExpensesJson(after.expenses)]
    case DeleteExpense(_) => storage[ExpensesKey := ExpensesJson(after.expenses)]
    case ImportExpenses(_) => storage[ExpensesKey := ExpensesJson(after.expenses)]
    case UpdateBudget(_) => storage[BudgetKey := BudgetJson(after.budget)]
    case _ => storage
  }

  // ---------------------------------------------------------------------
  // What each action does

  /** ADD_EXPENSE appends exactly one expense, the stamped payload, and
      changes nothing else. */
  lemma AddExpenseAppends(s: State, payload: Expense, stamp: Stamp)
    ensures var r := Reduce(s, AddExpense(payload, stamp));
      && |r.expenses| == |s.expenses| + 1
      && r.expenses[..|s.expenses|] == s.expenses
      && r.expenses[|s.expenses|] == payload.(id := Some(stamp.id), createdAt := Some(stamp.createdAt))
      && r.budget == s.budget && r.notifications == s.notifications && r.categories == s.categories
  {
    var r := Reduce(s, AddExpense(payload, stamp));
    assert r.expenses[..|s.expenses|] == s.expenses;
  }

  /** DELETE_EXPENSE keeps exactly the expenses whose id differs from the
      target, each at the place it had. */
  lemma DeleteExpenseKeeps(s: State, target: Option<string>) returns (kept: seq<nat>)
    ensures var r := Reduce(s, DeleteExpense(target));
      && (forall e :: e in r.expenses <==> e in s.expenses && e.id != target)
      && |kept| == |r.expenses|
      && (forall j :: 0 <= j < |kept| ==> kept[j] < |s.expenses| && r.expenses[j] == s.expenses[kept[j]])
      && (forall j, k :: 0 <= j < k < |kept| ==> kept[j] < kept[k])
      && (forall i :: 0 <= i < |s.expenses| ==> (s.expenses[i].id != target <==> i in kept))
      && r.budget == s.budget && r.notifications == s.notifications && r.categories == s.categories
  {
    kept := FilterIndices(IdDiffers(target), s.expenses);
  }

  /** Deleting an id that no expense carries leaves the list as it was. */
  lemma DeleteAbsentIdIsNoop(s: State, target: Option<string>)
    requires forall e :: e in s.expenses ==> e.id != target
    ensures Reduce(s, DeleteExpense(target)) == s
  {
    FilterAll(IdDiffers(target), s.expenses);
  }

  /** Deleting with an id: the expenses without id (the imported ones) all
      stay. Deleting with no id — what the list's delete button sends for an
      imported row — removes every imported row at once and keeps every row
      that has an id. */
  lemma DeleteWithoutId(s: State, id: string)
    ensures var r := Reduce(s, DeleteExpense(Some(id)));
      forall e :: e in s.expenses && e.id.None? ==> e in r.expenses
    ensures var r := Reduce(s, DeleteExpense(None));
      forall e :: e in r.expenses <==> e in s.expenses && e.id.Some?
  {
  }

  /** UPDATE_BUDGET: a key of the payload takes the payload's value, any
      other key keeps its value (and stays absent when it was). */
  lemma UpdateBudgetOverrides(s: State, changes: map<string, real>)
    ensures var r := Reduce(s, UpdateBudget(changes));
      && r.budget.Keys == s.budget.Keys + changes.Keys
      && (forall k :: k in changes ==> r.budget[k] == changes[k])
      && (forall k :: k in s.budget && k !in changes ==> r.budget[k] == s.budget[k])
      && r.expenses == s.expenses && r.notifications == s.notifications && r.categories == s.categories
  {
  }

  /** Applying the same UPDATE_BUDGET twice is the same as applying it once,
      in the state and in storage. */
  lemma {:induction false} UpdateBudgetIdempotent(s: State, storage: map<string, Stored>, changes: map<string, real>)
    ensures var once := Reduce(s, UpdateBudget(changes));
      var twice := Reduce(once, UpdateBudget(changes));
      && twice == once
      && Persist(Persist(storage, UpdateBudget(changes), once), UpdateBudget(changes), twice)
         == Persist(storage, UpdateBudget(changes), once)
  {
    var once := Reduce(s, UpdateBudget(changes));
    assert once.budget + changes == once.budget;
  }

  /** When the payload names every key the budget has, the budget becomes
      the payload (the whole-budget form's submit). */
  lemma UpdateBudgetCovering(s: State, changes: map<string, real>)
    requires s.budget.Keys <= changes.Keys
    ensures Reduce(s, UpdateBudget(changes)).budget == changes
  {
    assert s.budget + changes == changes;
  }

  /** IMPORT_EXPENSES appends the rows as they are, with no id or stamp. */
  lemma ImportExpensesAppends(s: State, rows: seq<Expense>)
    ensures var r := Reduce(s, ImportExpenses(rows));
      && |r.expenses| == |s.expenses| + |rows|
      && r.expenses[..|s.expenses|] == s.expenses
      && (forall i :: 0 <= i < |rows| ==> r.expenses[|s.expenses| + i] == rows[i])
      && r.budget == s.budget && r.notifications == s.notifications && r.categories == s.categories
  {
    var r := Reduce(s, ImportExpenses(rows));
    assert r.expenses[..|s.expenses|] == s.expenses;
  }

  /** LOAD_DATA overrides only the parts its payload carries; notifications
      and categories are kept. */
  lemma LoadDataOverrides(s: State, snapshot: Snapshot)
    ensures var r := Reduce(s, LoadData(snapshot));
      && (if snapshot.expenses.Some? then r.expenses == snapshot.expenses.value else r.expenses == s.expenses)
      && (if snapshot.budget.Some? then r.budget == snapshot.budget.value else r.budget == s.budget)
      && r.notifications == s.notifications && r.categories == s.categories
  {
  }

  /** ADD_NOTIFICATION appends; REMOVE_NOTIFICATION keeps exactly the
      notifications with another id, in order. */
  lemma NotificationActions(s: State, n: Notification, target: string)
    ensures var r := Reduce(s, AddNotification(n));
      && r.notifications == s.notifications + [n]
      && r.expenses == s.expenses && r.budget == s.budget && r.categories == s.categories
    ensures var r := Reduce(s, RemoveNotification(target));
      && (forall m :: m in r.notifications <==> m in s.notifications && m.id != target)
      && Filter(NotificationIdDiffers(target), r.notifications) == r.notifications
      && r.expenses == s.expenses && r.budget == s.budget && r.categories == s.categories
  {
    var r := Reduce(s, RemoveNotification(target));
    FilterAll(NotificationIdDiffers(target), r.notifications);
  }

  /** An action of any other type returns the state unchanged and writes
      nothing. */
  lemma OtherIsNoop(s: State, storage: map<string, Stored>, kind: string)
    ensures Reduce(s, Other(kind)) == s
    ensures Persist(storage, Other(kind), s) == storage
  {
  }

  /** Write-through: after an expense action storage holds the new list,
      after UPDATE_BUDGET the new budget; no other key is written, and the
      other actions write nothing. */
  lemma PersistWrites(s: State, storage: map<string, Stored>, action: Action)
    ensures var r := Reduce(s, action);
      var st := Persist(storage, action, r);
      && (action.AddExpense? || action.DeleteExpense? || action.ImportExpenses? ==>
            st == storage[ExpensesKey := ExpensesJson(r.expenses)])
      && (action.UpdateBudget? ==> st == storage[BudgetKey := BudgetJson(r.budget)])
      && (action.LoadData? || action.AddNotification? || action.RemoveNotification? || action.Other? ==>
            st == storage)
  {
  }

  // ---------------------------------------------------------------------
  // Startup and the storage invariant

  /** The expense list saved in storage, `[]` when there is none. */
  function SavedExpenses(saved: map<string, Stored>): (es: seq<Expense>)
    requires WellTyped(saved)
    ensures ExpensesKey !in saved ==> es == []
    ensures ExpensesKey in saved ==> saved[ExpensesKey] == ExpensesJson(es)
  {
    if ExpensesKey in saved then saved[ExpensesKey].savedExpenses else []
  }

  /** The budget saved in storage, the built-in budget when there is none. */
  function SavedBudget(saved: map<string, Stored>): (b: map<string, real>)
    requires WellTyped(saved)
    ensures BudgetKey !in saved ==> b == InitialBudget
    ensures BudgetKey in saved ==> saved[BudgetKey] == BudgetJson(b)
  {
    if BudgetKey in saved then saved[BudgetKey].savedBudget else InitialBudget
  }

  /** The action the provider dispatches on mount, if any: LOAD_DATA with
      both parts when storage holds either key. */
  function StartupAction(saved: map<string, Stored>): (a: Option<Action>)
    requires WellTyped(saved)
    ensures a.Some? <==> ExpensesKey in saved || BudgetKey in saved
    ensures a.Some? ==> a.value == LoadData(Snapshot(Some(SavedExpenses(saved)), Some(SavedBudget(saved))))
  {
    if ExpensesKey in saved || BudgetKey in saved
    then Some(LoadData(Snapshot(Some(SavedExpenses(saved)), Some(SavedBudget(saved)))))
    else None
  }

  /** The state right after the provider mounts over `saved`. */
  function Startup(saved: map<string, Stored>): (r: State)
    requires WellTyped(saved)
    ensures r.expenses == SavedExpenses(saved) && r.budget == SavedBudget(saved)
    ensures r.notifications == [] && r.categories == DefaultCategories
  {
    match StartupAction(saved)
    case Some(a) => Reduce(InitialState, a)
    case None => InitialState
  }

  /** Storage mirrors the state: each key holds the current list or budget,
      and a missing key means that part is still at its starting value. */
  predicate Mirrors(s: State, storage: map<string, Stored>) {
    && WellTyped(storage)
    && (ExpensesKey in storage ==> storage[ExpensesKey] == ExpensesJson(s.expenses))
    && (ExpensesKey !in storage ==> s.expenses == [])
    && (BudgetKey in storage ==> storage[BudgetKey] == BudgetJson(s.budget))
    && (BudgetKey !in storage ==> s.budget == InitialBudget)
  }

  /** Right after startup, storage mirrors the state. */
  lemma StartupMirrors(saved: map<string, Stored>)
    requires WellTyped(saved)
    ensures Mirrors(Startup(saved), saved)
    ensures Startup(saved).notifications == [] && Startup(saved).categories == DefaultCategories
  {
  }

  /** Every action but LOAD_DATA keeps storage mirroring the state. */
  lemma DispatchKeepsMirror(s: State, storage: map<string, Stored>, action: Action)
    requires Mirrors(s, storage)
    requires !action.LoadData?
    ensures Mirrors(Reduce(s, action), Persist(storage, action, Reduce(s, action)))
  {
  }

  /** Reloading the page over mirrored storage restores the expenses and
      the budget exactly. */
  lemma ReloadRestores(s: State, storage: map<string, Stored>)
    requires Mirrors(s, storage)
    ensures Startup(storage).expenses == s.expenses
    ensures Startup(storage).budget == s.budget
  {
  }

  /** The state and storage after dispatching `actions` in order. */
  function DispatchAll(s: State, storage: map<string, Stored>, actions: seq<Action>): (State, map<string, Stored>)
    decreases |actions|
  {
    if actions == [] then (s, storage)
    else
      var s' := Reduce(s, actions[0]);
      DispatchAll(s', Persist(storage, actions[0], s'), actions[1..])
  }

  /** A session that starts from storage and dispatches anything but
      LOAD_DATA leaves storage from which a reload restores its final
      expenses and budget. */
  lemma {:induction false} SessionSurvivesReload(saved: map<string, Stored>, actions: seq<Action>)
    requires WellTyped(saved)
    requires forall i :: 0 <= i < |actions| ==> !actions[i].LoadData?
    ensures var (s, st) := DispatchAll(Startup(saved), saved, actions);
      WellTyped(st) && Startup(st).expenses == s.expenses && Startup(st).budget == s.budget
  {
    StartupMirrors(saved);
    MirrorsAlong(Startup(saved), saved, actions);
    var (s, st) := DispatchAll(Startup(saved), saved, actions);
    ReloadRestores(s, st);
  }

  lemma {:induction false} MirrorsAlong(s: State, storage: map<string, Stored>, actions: seq<Action>)
    requires Mirrors(s, storage)
    requires forall i :: 0 <= i < |actions| ==> !actions[i].LoadData?
    ensures var (s', st') := DispatchAll(s, storage, actions); Mirrors(s', st')
    decreases |actions|
  {
    if actions != [] {
      var s1 := Reduce(s, actions[0]);
      DispatchKeepsMirror(s, storage, actions[0]);
      assert forall i :: 0 <= i < |actions[1..]| ==> !actions[1..][i].LoadData? by {
        forall i | 0 <= i < |actions[1..]| ensures !actions[1..][i].LoadData? {
          assert actions[1..][i] == actions[i + 1];
        }
      }
      MirrorsAlong(s1, Persist(storage, actions[0], s1), actions[1..]);
    }
  }
}
