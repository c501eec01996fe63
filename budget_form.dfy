/** The whole-budget form (src/components/BudgetForm.jsx): a copy of the
    store's budget edited one category at a time, its running total, and the
    submit that hands the whole copy to UPDATE_BUDGET. `parseNumber` stands
    for `parseFloat` (`None` is NaN). */
module BudgetFormDialog {
  import opened Common
  import opened Sums
  import opened FinanceState
  import opened FinanceReducer
  import FinanceProvider

  /** What an input field shows: empty, or the stored number. */
  datatype FieldText = Blank | Number(value: real)

  /** `budgetData[id] || ''`: a missing value and a 0 both show an empty
      field. */
  function FieldValue(data: map<string, real>, id: string): (t: FieldText)
    ensures t == Blank <==> id !in data || data[id] == 0.0
    ensures t.Number? ==> id in data && t.value == data[id]
  {
    if id in data && data[id] != 0.0 then Number(data[id]) else Blank
  }

  /** The form data after one `handleCategoryChange`. */
  function Changed(data: map<string, real>, id: string, text: string, parseNumber: string -> Option<real>): map<string, real> {
    data[id := ParseOrZero(parseNumber, text)]
  }

  /** One change sets only its own key (to 0 for text that is not a
      number) and moves the displayed total by exactly the change there. */
  lemma ChangeMovesTotal(data: map<string, real>, id: string, text: string, parseNumber: string -> Option<real>)
    ensures var after := Changed(data, id, text, parseNumber);
      && after.Keys == data.Keys + {id}
      && (forall k :: k in data && k != id ==> after[k] == data[k])
      && after[id] == ParseOrZero(parseNumber, text)
      && (parseNumber(text).Some? ==> after[id] == parseNumber(text).value)
      && (parseNumber(text).None? ==> after[id] == 0.0)
      && SumValues(after) == SumValues(data) - Lookup(data, id) + after[id]
  {
    SumValuesUpdate(data, id, ParseOrZero(parseNumber, text));
  }

  /** The form data after a series of changes, each a category id and the
      text typed for it. */
  function AfterEdits(data: map<string, real>, edits: seq<(string, string)>, parseNumber: string -> Option<real>): map<string, real>
    decreases |edits|
  {
    if edits == [] then data
    else AfterEdits(Changed(data, edits[0].0, edits[0].1, parseNumber), edits[1..], parseNumber)
  }

  /** Changes never drop a key: the form keeps every key it started with. */
  lemma {:induction false} EditsKeepKeys(data: map<string, real>, edits: seq<(string, string)>, parseNumber: string -> Option<real>)
    ensures data.Keys <= AfterEdits(data, edits, parseNumber).Keys
    decreases |edits|
  {
    if edits != [] {
      EditsKeepKeys(Changed(data, edits[0].0, edits[0].1, parseNumber), edits[1..], parseNumber);
    }
  }

  /** A form opened on the store's budget and edited in any way, submitted
      while the store's budget is still the one it copied, makes the store's
      budget exactly the form's data. */
  lemma SubmitAfterEditsReplacesBudget(s: State, edits: seq<(string, string)>, parseNumber: string -> Option<real>)
    ensures var data := AfterEdits(s.budget, edits, parseNumber);
      Reduce(s, UpdateBudget(data)).budget == data
  {
    EditsKeepKeys(s.budget, edits, parseNumber);
    UpdateBudgetCovering(s, AfterEdits(s.budget, edits, parseNumber));
  }

  /** The form's state. */
  class Form {
    var budgetData: map<string, real>

    /** The form starts as a copy of the store's budget. */
    constructor (store: FinanceProvider.Store)
      ensures budgetData == store.budget
    {
      budgetData := store.budget;
    }

    /** The displayed total: the sum of all values of the form data. */
    ghost function Total(): real
      reads this
    {
      SumValues(budgetData)
    }

    /** `handleCategoryChange`: one key takes the parsed text, or 0. */
    method HandleCategoryChange(categoryId: string, text: string, parseNumber: string -> Option<real>)
      modifies this
      ensures budgetData == Changed(old(budgetData), categoryId, text, parseNumber)
      ensures Total() == old(Total()) - Lookup(old(budgetData), categoryId) + budgetData[categoryId]
    {
      ChangeMovesTotal(budgetData, categoryId, text, parseNumber);
      budgetData := budgetData[categoryId := ParseOrZero(parseNumber, text)];
    }

    /** `handleSubmit`: UPDATE_BUDGET with the whole form data, then the
        form closes. Every key of the form takes the form's value. */
    method HandleSubmit(store: FinanceProvider.Store) returns (closed: bool)
      modifies store
      ensures store.Current() == Reduce(old(store.Current()), UpdateBudget(budgetData))
      ensures store.storage == Persist(old(store.storage), UpdateBudget(budgetData), store.Current())
      ensures forall k :: k in budgetData ==> k in store.budget && store.budget[k] == budgetData[k]
      ensures closed
    {
      store.Dispatch(UpdateBudget(budgetData));
      closed := true;
    }
  }
}
