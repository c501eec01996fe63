/** The views the finance store computes on read
    (src/context/FinanceContext.jsx): this month's expenses, the total per
    category, and the bills due in the next three days. Dates are
    millisecond timestamps; `parseDate` stands for `new Date(text)`, `None`
    being an invalid date, which no interval contains. */
module FinanceViews {
  import opened Common
  import opened Sums
  import opened FinanceState

  /** `isWithinInterval(t, {start, end})`: both ends included. */
  predicate InInterval(t: Option<int>, start: int, end: int) {
    t.Some? && start <= t.value <= end
  }

  const MsPerDay: int := 86400000

  /** `addDays(t, n)` on timestamps. */
  function AddDays(t: int, n: int): int {
    t + n * MsPerDay
  }

  function InMonth(monthStart: int, monthEnd: int, parseDate: string -> Option<int>): Expense -> bool {
    (e: Expense) => InInterval(parseDate(e.date), monthStart, monthEnd)
  }

  /** `getCurrentMonthExpenses`: the expenses dated within the month, in
      their order (the order is `Common.FilterIndices`). */
  function CurrentMonthExpenses(expenses: seq<Expense>, monthStart: int, monthEnd: int,
                                parseDate: string -> Option<int>): (r: seq<Expense>)
    ensures |r| <= |expenses|
    ensures forall e :: e in r <==>
      e in expenses && parseDate(e.date).Some? && monthStart <= parseDate(e.date).value <= monthEnd
  {
    Filter(InMonth(monthStart, monthEnd, parseDate), expenses)
  }

  /** The month's expenses in their order: the positions of the expenses
      dated within the month, increasing. */
  lemma CurrentMonthPositions(expenses: seq<Expense>, monthStart: int, monthEnd: int,
                              parseDate: string -> Option<int>) returns (kept: seq<nat>)
    ensures var r := CurrentMonthExpenses(expenses, monthStart, monthEnd, parseDate);
      && |kept| == |r|
      && (forall j :: 0 <= j < |kept| ==> kept[j] < |expenses| && r[j] == expenses[kept[j]])
      && (forall j, k :: 0 <= j < k < |kept| ==> kept[j] < kept[k])
      && (forall i :: 0 <= i < |expenses| ==>
            (InInterval(parseDate(expenses[i].date), monthStart, monthEnd) <==> i in kept))
  {
    kept := FilterIndices(InMonth(monthStart, monthEnd, parseDate), expenses);
  }

  /** `expense.category === id`. */
  function InCategory(id: string): Expense -> bool {
    (e: Expense) => e.category == id
  }

  /** `.reduce((sum, expense) => sum + expense.amount, 0)`. */
  function SumAmounts(es: seq<Expense>): real {
    if es == [] then 0.0 else es[0].amount + SumAmounts(es[1..])
  }

  lemma {:induction false} SumAmountsConcat(a: seq<Expense>, b: seq<Expense>)
    ensures SumAmounts(a + b) == SumAmounts(a) + SumAmounts(b)
  {
    if a == [] {
      assert a + b == b;
    } else {
      assert (a + b)[1..] == a[1..] + b;
      SumAmountsConcat(a[1..], b);
    }
  }

  /** The total one category's entry holds. */
  function CategoryTotal(monthly: seq<Expense>, id: string): real {
    SumAmounts(Filter(InCategory(id), monthly))
  }

  /** The dictionary `getExpensesByCategory` returns: one key per category
      id, holding that category's total. */
  function CategoryTotals(monthly: seq<Expense>, categories: seq<Category>): (m: map<string, real>)
    ensures m.Keys == CategoryIds(categories)
    ensures forall k :: k in m ==> m[k] == CategoryTotal(monthly, k)
  {
    map k | k in CategoryIds(categories) :: CategoryTotal(monthly, k)
  }

  /** `getExpensesByCategory`: the `forEach` over the categories that fills
      the dictionary one key at a time. */
  method ExpensesByCategory(expenses: seq<Expense>, categories: seq<Category>,
                            monthStart: int, monthEnd: int, parseDate: string -> Option<int>)
    returns (byCategory: map<string, real>)
    ensures byCategory == CategoryTotals(CurrentMonthExpenses(expenses, monthStart, monthEnd, parseDate), categories)
  {
    var monthly := CurrentMonthExpenses(expenses, monthStart, monthEnd, parseDate);
    byCategory := map[];
    var i := 0;
    while i < |categories|
      invariant 0 <= i <= |categories|
      invariant byCategory.Keys == CategoryIds(categories[..i])
      invariant forall k :: k in byCategory ==> byCategory[k] == CategoryTotal(monthly, k)
    {
      assert CategoryIds(categories[..i + 1]) == CategoryIds(categories[..i]) + {categories[i].id} by {
        assert categories[..i + 1] == categories[..i] + [categories[i]];
      }
      byCategory := byCategory[categories[i].id := CategoryTotal(monthly, categories[i].id)];
      i := i + 1;
    }
    assert categories[..i] == categories;
  }

  /** One more expense in the month adds its amount to exactly its own
      category's total. */
  lemma CategoryTotalAppend(monthly: seq<Expense>, e: Expense, id: string)
    ensures CategoryTotal(monthly + [e], id) == CategoryTotal(monthly, id) + (if e.category == id then e.amount else 0.0)
  {
    FilterConcat(InCategory(id), monthly, [e]);
    SumAmountsConcat(Filter(InCategory(id), monthly), Filter(InCategory(id), [e]));
    assert Filter(InCategory(id), [e]) == if e.category == id then [e] else [];
  }

  /** An expense whose category is not in the list changes no entry. */
  lemma UnknownCategoryIgnored(monthly: seq<Expense>, categories: seq<Category>, e: Expense)
    requires e.category !in CategoryIds(categories)
    ensures CategoryTotals(monthly + [e], categories) == CategoryTotals(monthly, categories)
  {
    forall k | k in CategoryIds(categories)
      ensures CategoryTotal(monthly + [e], k) == CategoryTotal(monthly, k)
    {
      CategoryTotalAppend(monthly, e, k);
    }
  }

  /** An expense of a listed category raises that entry by its amount and
      no other entry. */
  lemma KnownCategoryAdds(monthly: seq<Expense>, categories: seq<Category>, e: Expense)
    requires e.category in CategoryIds(categories)
    ensures var before, after := CategoryTotals(monthly, categories), CategoryTotals(monthly + [e], categories);
      && after.Keys == before.Keys
      && after[e.category] == before[e.category] + e.amount
      && forall k :: k in before && k != e.category ==> after[k] == before[k]
  {
    CategoryTotalAppend(monthly, e, e.category);
    forall k | k in CategoryIds(categories) && k != e.category
      ensures CategoryTotal(monthly + [e], k) == CategoryTotal(monthly, k)
    {
      CategoryTotalAppend(monthly, e, k);
    }
  }

  function InCategories(ids: seq<string>): Expense -> bool {
    (e: Expense) => e.category in ids
  }

  /** Splitting the expenses of a set of categories into one category and
      the rest, when the rest does not contain it. */
  lemma {:induction false} SumSplit(xs: seq<Expense>, id: string, rest: seq<string>)
    requires id !in rest
    ensures SumAmounts(Filter(InCategories([id] + rest), xs))
         == CategoryTotal(xs, id) + SumAmounts(Filter(InCategories(rest), xs))
  {
    if xs != [] {
      var x, tail := xs[0], xs[1..];
      SumSplit(tail, id, rest);
      var both, one, others := InCategories([id] + rest), InCategory(id), InCategories(rest);
      assert Filter(both, xs) == (if both(x) then [x] else []) + Filter(both, tail);
      assert Filter(one, xs) == (if one(x) then [x] else []) + Filter(one, tail);
      assert Filter(others, xs) == (if others(x) then [x] else []) + Filter(others, tail);
      SumAmountsConcat(if both(x) then [x] else [], Filter(both, tail));
      SumAmountsConcat(if one(x) then [x] else [], Filter(one, tail));
      SumAmountsConcat(if others(x) then [x] else [], Filter(others, tail));
    }
  }

  /** Adding the category totals of distinct ids gives the total of the
      expenses in those categories. */
  lemma {:induction false} SumAtCategoryTotals(m: map<string, real>, ids: seq<string>, xs: seq<Expense>)
    requires Distinct(ids)
    requires forall k :: k in ids ==> k in m && m[k] == CategoryTotal(xs, k)
    ensures SumAt(m, ids) == SumAmounts(Filter(InCategories(ids), xs))
  {
    if ids == [] {
      FilterNone(InCategories(ids), xs);
    } else {
      var rest := ids[1..];
      assert ids == [ids[0]] + rest;
      assert ids[0] !in rest by {
        forall j | 0 <= j < |rest| ensures rest[j] != ids[0] {
          assert rest[j] == ids[j + 1];
        }
      }
      assert Distinct(rest) by {
        forall i, j | 0 <= i < j < |rest| ensures rest[i] != rest[j] {
          assert rest[i] == ids[i + 1] && rest[j] == ids[j + 1];
        }
      }
      assert forall k :: k in rest ==> k in ids;
      SumAtCategoryTotals(m, rest, xs);
      SumSplit(xs, ids[0], rest);
    }
  }

  /** With distinct category ids, the entries of `getExpensesByCategory`
      add up to the month's spending in the listed categories: every such
      expense is counted once, in its own category. */
  lemma TotalOfCategoryTotals(monthly: seq<Expense>, categories: seq<Category>)
    requires Distinct(CategoryIdList(categories))
    ensures SumValues(CategoryTotals(monthly, categories))
         == SumAmounts(Filter(InCategories(CategoryIdList(categories)), monthly))
  {
    var ids := CategoryIdList(categories);
    var m := CategoryTotals(monthly, categories);
    assert m.Keys == set k | k in ids by {
      forall k | k in m ensures k in ids {
        var c :| c in categories && c.id == k;
        var i :| 0 <= i < |categories| && categories[i] == c;
        assert ids[i] == k;
      }
      forall k | k in ids ensures k in m {
        var i :| 0 <= i < |ids| && ids[i] == k;
        assert categories[i] in categories;
      }
    }
    SumValuesAsList(m, ids);
    SumAtCategoryTotals(m, ids, monthly);
  }

  /** When every expense of the month has a listed category, the category
      totals add up to the month's whole spending. */
  lemma AllKnownTotal(monthly: seq<Expense>, categories: seq<Category>)
    requires Distinct(CategoryIdList(categories))
    requires forall e :: e in monthly ==> e.category in CategoryIds(categories)
    ensures SumValues(CategoryTotals(monthly, categories)) == SumAmounts(monthly)
  {
    TotalOfCategoryTotals(monthly, categories);
    var ids := CategoryIdList(categories);
    forall e | e in monthly ensures InCategories(ids)(e) {
      var c :| c in categories && c.id == e.category;
      var i :| 0 <= i < |categories| && categories[i] == c;
      assert ids[i] == e.category;
    }
    FilterAll(InCategories(ids), monthly);
  }

  /** The built-in categories' ids are distinct. */
  lemma DefaultCategoriesDistinct()
    ensures Distinct(CategoryIdList(DefaultCategories))
  {
  }

  /** `!expense.dueDate` is false: a due date is present and non-empty. */
  predicate HasDueDate(e: Expense) {
    e.dueDate.Some? && e.dueDate.value != ""
  }

  function DueSoon(today: int, parseDate: string -> Option<int>): Expense -> bool {
    (e: Expense) => HasDueDate(e) && InInterval(parseDate(e.dueDate.value), today, AddDays(today, 3))
  }

  /** `checkUpcomingBills`: the expenses with a due date from now to three
      days from now, both ends included, in their order (the order is
      `Common.FilterIndices`). */
  function UpcomingBills(expenses: seq<Expense>, today: int, parseDate: string -> Option<int>): (r: seq<Expense>)
    ensures |r| <= |expenses|
    ensures forall e :: e in r <==>
      && e in expenses
      && e.dueDate.Some? && e.dueDate.value != ""
      && parseDate(e.dueDate.value).Some?
      && today <= parseDate(e.dueDate.value).value <= today + 3 * MsPerDay
  {
    Filter(DueSoon(today, parseDate), expenses)
  }

  /** The upcoming bills in their order: the positions of the expenses due
      within the next three days, increasing. */
  lemma UpcomingBillsPositions(expenses: seq<Expense>, today: int, parseDate: string -> Option<int>)
    returns (kept: seq<nat>)
    ensures var r := UpcomingBills(expenses, today, parseDate);
      && |kept| == |r|
      && (forall j :: 0 <= j < |kept| ==> kept[j] < |expenses| && r[j] == expenses[kept[j]])
      && (forall j, k :: 0 <= j < k < |kept| ==> kept[j] < kept[k])
      && (forall i :: 0 <= i < |expenses| ==> (DueSoon(today, parseDate)(expenses[i]) <==> i in kept))
  {
    kept := FilterIndices(DueSoon(today, parseDate), expenses);
  }
}
