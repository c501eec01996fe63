/** The CSV import dialog (src/components/ImportExpenses.jsx): the rows the
    CSV parser produced are filtered and normalised into a preview, and the
    preview is handed to the store. A row is the parser's record of one line:
    column name to text. `parseNumber` stands for `parseFloat` (`None` is
    NaN); `todayIso` is today's date as `YYYY-MM-DD`. */
module ImportExpensesDialog {
  import opened Common
  import opened FinanceState
  import opened FinanceReducer
  import FinanceProvider

  type Row = map<string, string>

  /** `row[key]` is truthy: the column is present and not empty. */
  predicate Truthy(row: Row, key: string) {
    key in row && row[key] != ""
  }

  /** `row[first] || row[second]`, `None` when both are falsy. */
  function FirstTruthy(row: Row, first: string, second: string): (r: Option<string>)
    ensures Truthy(row, first) ==> r == Some(row[first])
    ensures !Truthy(row, first) && Truthy(row, second) ==> r == Some(row[second])
    ensures !Truthy(row, first) && !Truthy(row, second) ==> r == None
  {
    if Truthy(row, first) then Some(row[first])
    else if Truthy(row, second) then Some(row[second])
    else None
  }

  /** The filter: `row.description && row.amount`. */
  predicate Kept(row: Row) {
    Truthy(row, "description") && Truthy(row, "amount")
  }

  /** The map: one row to one expense record, with its fallbacks. An
      imported record has no id, no creation time and no due date. */
  function Normalise(row: Row, todayIso: string, parseNumber: string -> Option<real>): (e: Expense)
    ensures e.id == None && e.createdAt == None && e.dueDate == None
    // On a kept row the Portuguese fallbacks of description and amount never apply.
    ensures Kept(row) ==> e.description == row["description"]
    ensures Kept(row) && parseNumber(row["amount"]).Some? ==> e.amount == parseNumber(row["amount"]).value
    ensures Kept(row) && parseNumber(row["amount"]).None? ==> e.amount == 0.0
    ensures Truthy(row, "category") ==> e.category == row["category"]
    ensures !Truthy(row, "category") && Truthy(row, "categoria") ==> e.category == row["categoria"]
    ensures !Truthy(row, "category") && !Truthy(row, "categoria") ==> e.category == "outros"
    ensures Truthy(row, "date") ==> e.date == row["date"]
    ensures !Truthy(row, "date") && Truthy(row, "data") ==> e.date == row["data"]
    ensures !Truthy(row, "date") && !Truthy(row, "data") ==> e.date == todayIso
    ensures Truthy(row, "notes") ==> e.notes == row["notes"]
    ensures !Truthy(row, "notes") && Truthy(row, "observacoes") ==> e.notes == row["observacoes"]
    ensures !Truthy(row, "notes") && !Truthy(row, "observacoes") ==> e.notes == ""
  {
    Expense(
      id := None,
      // `undefined` when both columns are falsy: unreachable behind the filter.
      description := FirstTruthy(row, "description", "descricao").GetOr(""),
      amount :=
        match FirstTruthy(row, "amount", "valor")
        case Some(text) => ParseOrZero(parseNumber, text)
        case None => 0.0,  // parseFloat(undefined) is NaN
      category := FirstTruthy(row, "category", "categoria").GetOr("outros"),
      date := FirstTruthy(row, "date", "data").GetOr(todayIso),
      dueDate := None,
      notes := FirstTruthy(row, "notes", "observacoes").GetOr(""),
      createdAt := None)
  }

  /** `.map(Normalise)`. */
  function NormaliseAll(rows: seq<Row>, todayIso: string, parseNumber: string -> Option<real>): (es: seq<Expense>)
    ensures |es| == |rows|
    ensures forall i :: 0 <= i < |rows| ==> es[i] == Normalise(rows[i], todayIso, parseNumber)
  {
    if rows == [] then []
    else [Normalise(rows[0], todayIso, parseNumber)] + NormaliseAll(rows[1..], todayIso, parseNumber)
  }

  function KeptRow(): Row -> bool {
    (row: Row) => Kept(row)
  }

  /** `validData`: the preview built from the parser's rows. */
  function ValidData(rows: seq<Row>, todayIso: string, parseNumber: string -> Option<real>): (es: seq<Expense>)
    ensures |es| <= |rows|
    ensures forall e :: e in es ==> e.id == None && e.createdAt == None && e.dueDate == None
  {
    NormaliseAll(Filter(KeptRow(), rows), todayIso, parseNumber)
  }

  /** One record per kept row, in the rows' order: `from` lists the
      positions of the kept rows, increasing, and record `j` is the
      normalised row at `from[j]`. */
  lemma ValidDataRows(rows: seq<Row>, todayIso: string, parseNumber: string -> Option<real>)
    returns (from: seq<nat>)
    ensures var es := ValidData(rows, todayIso, parseNumber);
      && |from| == |es|
      && (forall j :: 0 <= j < |from| ==>
            from[j] < |rows| && Kept(rows[from[j]]) && es[j] == Normalise(rows[from[j]], todayIso, parseNumber))
      && (forall j, k :: 0 <= j < k < |from| ==> from[j] < from[k])
      && (forall i :: 0 <= i < |rows| ==> (Kept(rows[i]) <==> i in from))
  {
    from := FilterIndices(KeptRow(), rows);
  }

  /** A row whose amount is not a number is still kept, with amount 0. */
  lemma NonNumericAmountKept(rows: seq<Row>, i: nat, todayIso: string, parseNumber: string -> Option<real>)
    requires i < |rows| && Kept(rows[i]) && parseNumber(rows[i]["amount"]).None?
    ensures exists e :: (e in ValidData(rows, todayIso, parseNumber)
                         && e.amount == 0.0 && e.description == rows[i]["description"])
  {
    var from := ValidDataRows(rows, todayIso, parseNumber);
    var j :| 0 <= j < |from| && from[j] == i;
    assert ValidData(rows, todayIso, parseNumber)[j] in ValidData(rows, todayIso, parseNumber);
  }

  /** Imported rows have no id, and the list's delete button sends that
      missing id: deleting one imported row removes every imported row,
      while every expense that has an id stays. */
  lemma DeletingImportedRowRemovesAllImported(s: State, rows: seq<Row>, todayIso: string,
                                              parseNumber: string -> Option<real>)
    ensures var imported := ValidData(rows, todayIso, parseNumber);
      var after := Reduce(Reduce(s, ImportExpenses(imported)), DeleteExpense(None));
      && (forall e :: e in imported ==> e !in after.expenses)
      && (forall e :: e in s.expenses && e.id.Some? ==> e in after.expenses)
  {
  }

  /** The dialog's state. */
  class Dialog {
    var file: Option<string>
    var preview: seq<Expense>
    var isLoading: bool

    constructor ()
      ensures file == None && preview == [] && !isLoading
    {
      file, preview, isLoading := None, [], false;
    }

    /** `handleFileChange`, up to the hand-over to the parser: nothing
        happens without a file; otherwise the file is kept and loading
        starts. */
    method HandleFileChange(selected: Option<string>)
      modifies this
      ensures selected.None? ==> file == old(file) && isLoading == old(isLoading)
      ensures selected.Some? ==> file == selected && isLoading
      ensures preview == old(preview)
    {
      if selected.None? {
        return;
      }
      file := selected;
      isLoading := true;
    }

    /** The parser's `complete` callback: the preview becomes the valid
        data and loading stops. */
    method ParseComplete(rows: seq<Row>, todayIso: string, parseNumber: string -> Option<real>)
      modifies this
      ensures preview == ValidData(rows, todayIso, parseNumber)
      ensures !isLoading && file == old(file)
    {
      preview := ValidData(rows, todayIso, parseNumber);
      isLoading := false;
    }

    /** The parser's `error` callback: loading stops, the preview stays. */
    method ParseError()
      modifies this
      ensures !isLoading && file == old(file) && preview == old(preview)
    {
      isLoading := false;
    }

    /** `handleImport`: with an empty preview nothing is dispatched and the
        dialog stays open; otherwise IMPORT_EXPENSES carries exactly the
        preview and the dialog closes. */
    method HandleImport(store: FinanceProvider.Store) returns (closed: bool)
      modifies store
      ensures closed <==> |preview| > 0
      ensures !closed ==> store.Current() == old(store.Current()) && store.storage == old(store.storage)
      ensures closed ==> store.Current() == Reduce(old(store.Current()), ImportExpenses(preview))
      ensures closed ==> store.storage == Persist(old(store.storage), ImportExpenses(preview), store.Current())
    {
      if |preview| == 0 {
        return false;
      }
      store.Dispatch(ImportExpenses(preview));
      closed := true;
    }
  }
}
