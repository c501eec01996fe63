# Finance tracker core, modelled in Dafny

This project models the logic of a small personal-finance web app and proves
what it promises. The app tracks expenses in Brazilian reais against a budget
per category, imports expenses from CSV and reminds the user of bills that are
due soon. The model covers:

- **The finance store** (`FinanceState`, `FinanceReducer`, `FinanceProvider`):
  - the reducer's seven actions and its default case;
  - the write-through of expenses and budget to browser storage;
  - the LOAD_DATA dispatched on mount from what storage holds.

  The reducer is a pure function `Reduce`. The provider is a class `Store`
  whose `Dispatch` method replaces the state and writes storage. `Mirrors`
  says that storage holds the current expenses and budget. Every action but
  LOAD_DATA keeps `Mirrors`, so a reload restores the session.
- **The store's views** (`FinanceViews`):
  - this month's expenses;
  - the per-category total, a loop over the categories that fills a map. It
    is proved against its specification `CategoryTotals`;
  - the bills due in the next three days.
- **The CSV import dialog** (`ImportExpensesDialog`): the filter and the
  normalisation of the parsed rows, with their fallbacks, and the import
  guard.
- **The budget page** (`BudgetPage`): the per-category row, the balance and the
  inline one-category editor.
- **The whole-budget form** (`BudgetFormDialog`).
- **The budget-usage card** (`BudgetProgress`).
- **The reminder panel** (`NotificationManager`).
- **The category filter** of the expenses page (`ExpensesPage`).

**Modelling choices**

- Amounts are `real`. `parseFloat` is a parameter `string -> Option<real>`,
  where `None` stands for NaN, and `parseFloat(x) || 0` is `ParseOrZero`.
- Dates are the stored strings. A parameter `parseDate: string -> Option<int>`
  reads them as millisecond timestamps, where `None` is an invalid date. The
  month's bounds and "now" are parameters. `isWithinInterval` includes both
  ends, and `addDays(t, 3)` is `t + 3 * 86400000`.
- Imported expenses carry no `id` and no `createdAt`, so those fields are
  `Option<string>`. ADD_EXPENSE carries its clock reading (the id from
  `Date.now()` and the ISO creation time) inside the action.
- Storage is a map from key to the stored JSON value. The JSON round trip is
  taken as exact.
- `onClose()` is modelled as a returned `closed` flag.

A consequence the model proves rather than hides: the list's delete button
sends `expense.id`, which is `undefined` for an imported row. The reducer keeps
only the rows whose id differs, so deleting one imported row removes every
imported row, while every expense that has an id stays
(`ImportExpensesDialog.DeletingImportedRowRemovesAllImported`).

## Model

| member | source | states |
|---|---|---|
| Common.Filter | src/context/FinanceContext.jsx:42 | `Array.prototype.filter`: an element is in the result iff it is in the input and passes the test; the result is no longer than the input |
| Common.FilterIndices | src/context/FinanceContext.jsx:42 | filtering keeps order: the result is the input at a strictly increasing list of positions, which are exactly the positions whose element passes the test |
| Sums.SumValues | src/components/BudgetProgress.jsx:9-10 | `Object.values(m).reduce(+, 0)`: the total of a map's values; its order independence is stated by `SumValuesRemove` |
| Sums.SumValuesRemove | src/components/BudgetProgress.jsx:9-10 | any key may be added first: the total is the key's value plus the total of the rest, whatever order the keys are visited in |
| Sums.SumValuesUpdate | src/components/BudgetForm.jsx:31 | setting one key moves the total by exactly the change at that key (a missing key counting as 0) |
| Sums.SumValuesAsList | src/components/BudgetProgress.jsx:10 | when a list names every key once, adding the values in the list's order gives the map's total |
| Sums.Lookup | src/pages/Budget.jsx:100-101 | `m[id] \|\| 0`: the stored value when the key is present, 0 when it is absent |
| Common.ParseOrZero | src/components/ImportExpenses.jsx:30 | `parseFloat(x) \|\| 0`: the parsed number when there is one, 0 for NaN |
| FinanceReducer.Reduce | src/context/FinanceContext.jsx:29-71 | `financeReducer`: no action changes the categories; only the notification actions touch notifications; only UPDATE_BUDGET and LOAD_DATA touch the budget; the budget and notification actions leave the expenses. Each case's result is stated by the lemmas below |
| FinanceReducer.Persist | src/context/FinanceContext.jsx:38-56 | the `setItem` calls: only "expenses" and "budget" are ever written and no key is removed; which case writes what is stated by `PersistWrites` |
| FinanceReducer.Stamped | src/context/FinanceContext.jsx:32-36 | the stored expense has the fresh id and createdAt, and every other field of the payload |
| FinanceReducer.IdDiffers | src/context/FinanceContext.jsx:42 | `expense.id !== payload`, a missing id being a value of its own; what DELETE_EXPENSE keeps with it is stated by `DeleteExpenseKeeps` and `DeleteWithoutId` |
| FinanceReducer.NotificationIdDiffers | src/context/FinanceContext.jsx:65 | `n.id !== payload`; what REMOVE_NOTIFICATION keeps with it is stated by `NotificationActions` |
| FinanceReducer.AddExpenseAppends | src/context/FinanceContext.jsx:31-39 | ADD_EXPENSE appends exactly one expense, the stamped payload, after the unchanged old list; budget, notifications and categories are unchanged |
| FinanceReducer.DeleteExpenseKeeps | src/context/FinanceContext.jsx:41-44 | DELETE_EXPENSE keeps exactly the expenses whose id differs from the payload, at increasing original positions; nothing else changes |
| FinanceReducer.DeleteAbsentIdIsNoop | src/context/FinanceContext.jsx:41-44 | deleting an id no expense carries leaves the state unchanged |
| FinanceReducer.DeleteWithoutId | src/context/FinanceContext.jsx:42 | deleting a real id keeps every id-less expense; deleting with a missing id keeps exactly the expenses that have an id |
| FinanceReducer.UpdateBudgetOverrides | src/context/FinanceContext.jsx:46-49 | UPDATE_BUDGET: the keys are the old ones plus the payload's; payload keys take the payload's value, other keys keep theirs; nothing else changes |
| FinanceReducer.UpdateBudgetIdempotent | src/context/FinanceContext.jsx:46-49 | the same UPDATE_BUDGET applied twice gives the state and the storage that applying it once gives |
| FinanceReducer.UpdateBudgetCovering | src/context/FinanceContext.jsx:47 | a payload that names every budget key becomes the budget |
| FinanceReducer.ImportExpensesAppends | src/context/FinanceContext.jsx:54-57 | IMPORT_EXPENSES gives the old list followed by the payload rows, unchanged and unstamped; nothing else changes |
| FinanceReducer.LoadDataOverrides | src/context/FinanceContext.jsx:51-52 | LOAD_DATA replaces only the parts its payload carries; notifications and categories are kept |
| FinanceReducer.NotificationActions | src/context/FinanceContext.jsx:59-66 | ADD_NOTIFICATION appends the notification; REMOVE_NOTIFICATION keeps exactly the notifications with another id; both leave expenses, budget and categories unchanged |
| FinanceReducer.OtherIsNoop | src/context/FinanceContext.jsx:68-69 | an unrecognised action returns the state unchanged and writes nothing |
| FinanceReducer.PersistWrites | src/context/FinanceContext.jsx:38-56 | after ADD, DELETE or IMPORT, "expenses" holds the new list; after UPDATE_BUDGET, "budget" holds the new budget; no other key changes; LOAD_DATA and the notification actions write nothing |
| FinanceReducer.SavedExpenses | src/context/FinanceContext.jsx:78-85 | the saved expense list, `[]` when storage has no "expenses" |
| FinanceReducer.SavedBudget | src/context/FinanceContext.jsx:79-86 | the saved budget, the built-in budget when storage has no "budget" |
| FinanceReducer.StartupAction | src/context/FinanceContext.jsx:76-90 | LOAD_DATA is dispatched on mount iff storage holds either key, and then carries both the saved list and the saved budget |
| FinanceReducer.Startup | src/context/FinanceContext.jsx:76-90 | the state right after mounting: the saved expenses (or none), the saved budget (or the built-in one), no notifications, the built-in categories |
| FinanceReducer.StartupMirrors | src/context/FinanceContext.jsx:76-90 | after mounting, storage mirrors the state; notifications are empty and categories are the built-in list |
| FinanceReducer.DispatchKeepsMirror | src/context/FinanceContext.jsx:29-71 | every action but LOAD_DATA keeps storage mirroring the state |
| FinanceReducer.ReloadRestores | src/context/FinanceContext.jsx:76-90 | mounting over mirrored storage restores the expenses and the budget exactly |
| FinanceReducer.SessionSurvivesReload | src/context/FinanceContext.jsx:29-90 | after a session of actions other than LOAD_DATA, a reload restores the session's final expenses and budget |
| FinanceReducer.MirrorsAlong | src/context/FinanceContext.jsx:29-71 | mirroring holds along any sequence of actions other than LOAD_DATA |
| FinanceProvider.Store.constructor | src/context/FinanceContext.jsx:73-90 | the provider starts at the built-in state, runs the mount-time load, and ends with storage untouched and mirroring the state |
| FinanceProvider.Store.Dispatch | src/context/FinanceContext.jsx:29-71 | the new state is the reducer's result; storage gets exactly the writes of the action's case; mirroring is kept by every action but LOAD_DATA |
| FinanceViews.CurrentMonthExpenses | src/context/FinanceContext.jsx:93-102 | an expense is kept iff its date parses to a time in the month's bounds, both included |
| FinanceViews.CurrentMonthPositions | src/context/FinanceContext.jsx:98-101 | the month's list keeps order: it is the expenses at a strictly increasing list of positions, exactly those whose date parses into the month |
| FinanceViews.InInterval | src/context/FinanceContext.jsx:100 | `isWithinInterval`: a valid time between the two ends, both included; an invalid date is in no interval; used by `CurrentMonthExpenses` and `UpcomingBills` |
| FinanceViews.InMonth | src/context/FinanceContext.jsx:98-101 | the month test of the filter; its meaning is stated by `CurrentMonthExpenses` |
| FinanceViews.InCategory | src/context/FinanceContext.jsx:111 | `expense.category === category.id`; used by `CategoryTotal` and the expenses page's filter |
| FinanceViews.SumAmounts | src/context/FinanceContext.jsx:112 | the `reduce` adding amounts from 0; how it behaves on joined lists is stated by `SumAmountsConcat` |
| FinanceViews.CategoryTotal | src/context/FinanceContext.jsx:110-112 | one category's entry; how it moves with one more expense is stated by `CategoryTotalAppend` |
| FinanceViews.SumAmountsConcat | src/context/FinanceContext.jsx:112 | the amount sum of two lists joined is the sum of their sums |
| FinanceViews.CategoryTotals | src/context/FinanceContext.jsx:105-116 | one key per category id, each holding the sum of that category's amounts among the month's expenses |
| FinanceViews.ExpensesByCategory | src/context/FinanceContext.jsx:105-116 | the `forEach` loop builds exactly `CategoryTotals` of this month's expenses |
| FinanceViews.CategoryTotalAppend | src/context/FinanceContext.jsx:110-112 | one more expense raises its own category's total by its amount and no other |
| FinanceViews.UnknownCategoryIgnored | src/context/FinanceContext.jsx:109-113 | an expense whose category is not listed changes no entry |
| FinanceViews.KnownCategoryAdds | src/context/FinanceContext.jsx:109-113 | an expense of a listed category raises exactly that entry by its amount |
| FinanceViews.SumSplit | src/context/FinanceContext.jsx:110-112 | the spending of a set of categories is one category's total plus the spending of the rest |
| FinanceViews.SumAtCategoryTotals | src/context/FinanceContext.jsx:109-113 | the entries of distinct ids add up to the spending in those categories |
| FinanceViews.TotalOfCategoryTotals | src/context/FinanceContext.jsx:105-116 | with distinct category ids, the sum of all entries is the month's spending in listed categories, each expense counted once |
| FinanceViews.AllKnownTotal | src/context/FinanceContext.jsx:105-116 | when every expense of the month has a listed category, the entries add up to the month's whole spending |
| FinanceViews.DefaultCategoriesDistinct | src/context/FinanceContext.jsx:18-26 | the built-in category ids are distinct |
| FinanceViews.HasDueDate | src/context/FinanceContext.jsx:124 | `!expense.dueDate` is false: a due date is present and not empty; its effect is stated by `UpcomingBills` |
| FinanceViews.DueSoon | src/context/FinanceContext.jsx:124-126 | the bill test of the filter; its meaning is stated by `UpcomingBills` |
| FinanceViews.UpcomingBills | src/context/FinanceContext.jsx:119-130 | an expense is kept iff it has a non-empty due date that parses to a time from now to three days from now, both included |
| FinanceViews.UpcomingBillsPositions | src/context/FinanceContext.jsx:123-127 | the bills keep order: they are the expenses at a strictly increasing list of positions, exactly those due from now to three days from now |
| FinanceViews.AddDays | src/context/FinanceContext.jsx:121 | `addDays(today, 3)` on millisecond timestamps: three whole days of 86400000 ms later; the window it bounds is stated by `UpcomingBills` |
| ImportExpensesDialog.FirstTruthy | src/components/ImportExpenses.jsx:29-33 | `row[a] \|\| row[b]`: the first column when it is non-empty, else the second when it is non-empty, else nothing |
| ImportExpensesDialog.Truthy | src/components/ImportExpenses.jsx:27-33 | a column is truthy iff it is present and not the empty string; used by `Kept` and `FirstTruthy` |
| ImportExpensesDialog.Kept | src/components/ImportExpenses.jsx:27 | the row filter `row.description && row.amount`; that exactly the kept rows yield records is stated by `ValidDataRows` |
| ImportExpensesDialog.Normalise | src/components/ImportExpenses.jsx:28-34 | no id, creation time or due date; on a kept row, the description is the "description" column and the amount is parsed from "amount" (0 for NaN); category, date and notes take their fallback chains ending in "outros", today's date and "" |
| ImportExpensesDialog.NormaliseAll | src/components/ImportExpenses.jsx:28-34 | one record per row, record i being row i normalised |
| ImportExpensesDialog.ValidData | src/components/ImportExpenses.jsx:26-34 | at most one record per parsed row, none with an id, a creation time or a due date |
| ImportExpensesDialog.ValidDataRows | src/components/ImportExpenses.jsx:26-34 | the records are the kept rows normalised, in input order; a row is kept iff its description and amount are both non-empty |
| ImportExpensesDialog.NonNumericAmountKept | src/components/ImportExpenses.jsx:27-30 | a kept row whose amount does not parse still yields a record, with amount 0 |
| ImportExpensesDialog.DeletingImportedRowRemovesAllImported | src/context/FinanceContext.jsx:41-44 | deleting with the missing id of an imported row removes every imported record and keeps every expense that has an id |
| ImportExpensesDialog.Dialog.constructor | src/components/ImportExpenses.jsx:12-14 | no file, an empty preview, not loading |
| ImportExpensesDialog.Dialog.HandleFileChange | src/components/ImportExpenses.jsx:16-21 | without a file nothing changes; otherwise the file is kept and loading starts |
| ImportExpensesDialog.Dialog.ParseComplete | src/components/ImportExpenses.jsx:25-38 | the preview becomes the valid data and loading stops |
| ImportExpensesDialog.Dialog.ParseError | src/components/ImportExpenses.jsx:39-42 | loading stops; the preview and the file stay |
| ImportExpensesDialog.Dialog.HandleImport | src/components/ImportExpenses.jsx:46-55 | the dialog closes iff the preview is non-empty; empty: nothing is dispatched and store and storage are unchanged; otherwise IMPORT_EXPENSES with exactly the preview |
| BudgetProgress.UsagePercent | src/components/BudgetProgress.jsx:11 | 0 when the budget is not positive; otherwise percentage × budget = spent × 100 |
| BudgetProgress.OverHundredIff | src/components/BudgetProgress.jsx:11 | usage passes 100% iff the budget is positive and the spending exceeds it |
| BudgetProgress.OverEightyIff | src/components/BudgetProgress.jsx:33-34 | usage passes 80% iff the budget is positive and the spending exceeds four fifths of it |
| BudgetProgress.BarWidth | src/components/BudgetProgress.jsx:30 | `Math.min(p, 100)`: never above 100, equal to p up to there |
| BudgetProgress.BarColour | src/components/BudgetProgress.jsx:32-36 | the nested colour conditional; which colour each spending level gets is stated by `ColourBySpending` |
| BudgetProgress.ColourBySpending | src/components/BudgetProgress.jsx:32-36 | red iff spending exceeds a positive budget; yellow iff it is within the budget but above four fifths of it; green iff the budget is not positive or spending is at most four fifths |
| BudgetProgress.Overrun | src/components/BudgetProgress.jsx:50-53 | the warning appears iff usage passes 100%, and the stated excess, spending minus budget, is then positive |
| BudgetProgress.ProgressCard | src/components/BudgetProgress.jsx:9-53 | the totals are the sums of the budget's values and of the category totals; the percentage is `UsagePercent`; the colour is `BarColour` and the bar `BarWidth` of the percentage, so the bar is at most 100 and exactly 100 above 100%; the overrun is `Overrun`, shown iff spending exceeds a positive total budget, with the excess spending minus budget |
| BudgetPage.RowFor | src/pages/Budget.jsx:100-103 | a category missing from either map counts as 0; the percentage is 0 without a positive budget and spending/budget × 100 otherwise; over budget iff the budget is positive and exceeded; the bar width is `BarWidth` of the percentage, so exactly 100 above 100% (`Math.min` at line 165) |
| BudgetPage.Balance | src/pages/Budget.jsx:80-81 | "Saldo Restante", total budget minus total spending; its colour is related to the progress card by `BalanceColourMatchesProgress` |
| BudgetPage.BalanceColourMatchesProgress | src/pages/Budget.jsx:80 | with a positive total budget, the balance is shown green exactly when the progress card shows no overrun |
| BudgetPage.TotalExpensesIsMonthSpending | src/pages/Budget.jsx:38 | with the built-in categories, the page's spending total is the month's spending in those categories |
| BudgetPage.Editor.constructor | src/pages/Budget.jsx:12-13 | no category is being edited and the edit text is empty |
| BudgetPage.Editor.HandleEdit | src/pages/Budget.jsx:17-20 | the edited category is set and the text is the current amount as a string |
| BudgetPage.Editor.HandleType | src/pages/Budget.jsx:130 | typing replaces the edit text and keeps the edited category |
| BudgetPage.Editor.HandleSave | src/pages/Budget.jsx:22-30 | UPDATE_BUDGET with the one edited key, holding the parsed text or 0; the budget changes at that key only; the edit state is cleared |
| BudgetPage.Editor.HandleCancel | src/pages/Budget.jsx:32-35 | the edit state is cleared and the store is not touched |
| BudgetPage.SaveUnchangedEdit | src/pages/Budget.jsx:17-30 | saving an edit without typing writes back the shown amount, given that reading a number back from its text returns it; an already-budgeted category keeps the whole budget unchanged |
| BudgetFormDialog.FieldValue | src/components/BudgetForm.jsx:68 | a field is empty iff its key is missing or holds 0; otherwise it shows the stored value |
| BudgetFormDialog.Changed | src/components/BudgetForm.jsx:24-29 | the form data after one change; its effect on keys, values and total is stated by `ChangeMovesTotal` |
| BudgetFormDialog.AfterEdits | src/components/BudgetForm.jsx:24-29 | the form data after a series of changes; stated by `EditsKeepKeys` and `SubmitAfterEditsReplacesBudget` |
| BudgetFormDialog.ChangeMovesTotal | src/components/BudgetForm.jsx:24-31 | one change sets only its own key, to the parsed number or 0 for non-numeric text (`ParseOrZero`), keeps every other key, and moves the total by exactly the change at that key |
| BudgetFormDialog.EditsKeepKeys | src/components/BudgetForm.jsx:24-29 | any series of changes keeps every key the form started with |
| BudgetFormDialog.SubmitAfterEditsReplacesBudget | src/components/BudgetForm.jsx:11-29 | a form opened on the budget and edited in any way, once submitted, makes the store's budget exactly the form's data |
| BudgetFormDialog.Form.constructor | src/components/BudgetForm.jsx:11 | the form data starts as a copy of the store's budget |
| BudgetFormDialog.Form.Total | src/components/BudgetForm.jsx:31 | the displayed total, the sum of all values of the form data; how a change moves it is stated by `HandleCategoryChange` |
| BudgetFormDialog.Form.HandleCategoryChange | src/components/BudgetForm.jsx:24-31 | the data changes at that key only; the total moves by the change there |
| BudgetFormDialog.Form.HandleSubmit | src/components/BudgetForm.jsx:13-22 | UPDATE_BUDGET with the whole form data; afterwards the store's budget equals the form data on every form key; the form closes |
| NotificationManager.BillNotification | src/components/NotificationManager.jsx:20-25 | id "bill-" followed by the bill's id, type "warning", the fixed title, the bill's due date, and a message of the description and the formatted amount |
| NotificationManager.IdText | src/components/NotificationManager.jsx:21 | a template literal renders the id itself, or "undefined" when it is missing; its consequence is stated by `IdlessBillsShareDismissal` |
| NotificationManager.BillNotifications | src/components/NotificationManager.jsx:18-30 | one notification per upcoming bill, in the bills' order |
| NotificationManager.DistinctBillIds | src/components/NotificationManager.jsx:21 | bills with different ids get different notification ids |
| NotificationManager.IdlessBillsShareDismissal | src/components/NotificationManager.jsx:21 | every id-less bill's notification has the id "bill-undefined"; dismissing that id removes them all |
| NotificationManager.ImportedRowsAreNeverBills | src/components/ImportExpenses.jsx:28-34 | imported records carry no due date, so no imported row is ever an upcoming bill |
| NotificationManager.Panel.constructor | src/components/NotificationManager.jsx:13-14 | an empty list and the panel shown |
| NotificationManager.Panel.Refresh | src/components/NotificationManager.jsx:16-43 | the list is rebuilt from the upcoming bills alone, discarding earlier dismissals; the panel then renders iff some expense is due within three days |
| NotificationManager.Panel.DismissNotification | src/components/NotificationManager.jsx:51-53 | exactly the notifications with that id are removed; the rest stay in order |
| NotificationManager.Panel.DismissAll | src/components/NotificationManager.jsx:55-57 | the list becomes empty |
| NotificationManager.Panel.ToggleShow | src/components/NotificationManager.jsx:67 | the panel's visibility flips and the list stays |
| NotificationManager.Panel.Close | src/components/NotificationManager.jsx:98 | the close button hides the panel and keeps the list |
| NotificationManager.Panel.Rendered | src/components/NotificationManager.jsx:59 | the component renders only a non-empty list; after a refresh this holds iff some bill is due soon (`Refresh`, `RenderedIffBillDue`) |
| NotificationManager.RenderedIffBillDue | src/components/NotificationManager.jsx:59 | after a refresh the panel renders iff some expense is due within the next three days |
| ExpensesPage.FilteredExpenses | src/pages/Expenses.jsx:17-21 | with "all" (the starting value) the full list, unchanged; otherwise an expense is shown iff it is in the list and has that category |
| ExpensesPage.FilteredKeepsOrder | src/pages/Expenses.jsx:19-21 | filtering a list made of two parts gives the filtered first part followed by the filtered second part |
| ExpensesPage.FilteredPositions | src/pages/Expenses.jsx:21 | with a category selected, the shown list is the expenses at a strictly increasing list of positions, exactly those of that category |

## Left out

- Rendering, styling, animation and routing are not modelled: the JSX, the
  Tailwind classes, framer-motion, react-router, the header, the navigation
  and the splash timer. They hold no logic.
- The browser `Notification` API call in the reminder effect is a browser
  side effect. So are `window.confirm` before a delete and the console logs.
- The `action` field of a bill notification (NotificationManager.jsx:26-29)
  only logs the bill's id; nothing in the panel calls it, so `Notification`
  has no such field.
- CSV parsing itself is not modelled. The dialog receives the parser's rows
  as a list of column-to-text maps, and the sample-file download is left out.
- `toFixed`, locale date formatting and IEEE floating point are not modelled.
  Amounts are exact reals. A notification's amount text is a `formatAmount`
  parameter, and `Number.prototype.toString` in the budget editor is a `show`
  parameter.
- The date library's internals are not modelled: `startOfMonth`, `endOfMonth`
  and `new Date(text)` are parameters, and `addDays` ignores daylight-saving
  shifts. An interval whose start is after its end never occurs, because the
  code never builds one.
- Report generation, the reports page and the chart are not modelled: PDF,
  mail, sharing, clipboard and chart configuration are foreign libraries. The
  reports' per-category sums and guarded percentages use the same rules as
  `FinanceViews.CategoryTotals` and `BudgetProgress.UsagePercent`.
- The dashboard's unguarded `budgetUsed` ratio is left out, because nothing
  uses it.
- React plumbing is left out: `useReducer`, context, and the error thrown by
  `useFinance` outside a provider.
- LOAD_DATA payloads are modelled with only the two parts the provider ever
  sends, expenses and budget.
- JSON is not modelled. Storing and reading back is taken as exact, and
  storage holding something other than the app's own JSON under its keys is
  excluded by the requires of `FinanceProvider.Store.constructor`.
- FinanceProvider.Store.constructor: assumes storage is well-formed
  (`WellTyped`), because `JSON.parse` on foreign text would throw or yield
  values of another shape.
- Ids from `Date.now()` are not claimed to be unique. The code does not
  ensure it, and `DistinctBillIds` assumes distinct ids rather than proving
  them.
- Expense fields other than id, description, amount, category, date, due
  date, notes and creation time are not modelled. `isRecurring` is one: the
  expense list only displays it, and ADD_EXPENSE's spread would carry it
  through unchanged.
- The delete button and the expense list are not modelled as components. Only
  the DELETE_EXPENSE payload they send is modelled, as the optional id.
