/** The budget-usage card (src/components/BudgetProgress.jsx): total budget,
    total spending, the zero-guarded usage percentage, the capped bar, its
    three-way colour and the overrun warning. The same guarded percentage is
    used per category on the budget page and in the PDF report; the cap of
    the bar is reused only on the budget page. */
module BudgetProgress {
  import opened Common
  import opened Sums

  /** `budget > 0 ? (spent / budget) * 100 : 0`. */
  function UsagePercent(spent: real, budget: real): (p: real)
    ensures budget <= 0.0 ==> p == 0.0
    ensures budget > 0.0 ==> p * budget == spent * 100.0
  {
    if budget > 0.0 then (spent / budget) * 100.0 else 0.0
  }

  /** Usage passes 100% exactly when there is a positive budget and the
      spending exceeds it. */
  lemma OverHundredIff(spent: real, budget: real)
    ensures UsagePercent(spent, budget) > 100.0 <==> budget > 0.0 && spent > budget
  {
    var p := UsagePercent(spent, budget);
    if budget > 0.0 {
      assert p * budget == spent * 100.0;
      assert p > 100.0 <==> p * budget > 100.0 * budget;
    }
  }

  /** Usage passes 80% exactly when there is a positive budget and the
      spending exceeds four fifths of it. */
  lemma OverEightyIff(spent: real, budget: real)
    ensures UsagePercent(spent, budget) > 80.0 <==> budget > 0.0 && spent * 5.0 > budget * 4.0
  {
    var p := UsagePercent(spent, budget);
    if budget > 0.0 {
      assert p * budget == spent * 100.0;
      assert p > 80.0 <==> p * budget > 80.0 * budget;
    }
  }

  /** `Math.min(percentage, 100)`: the bar never passes 100% and shows the
      percentage itself up to there. */
  function BarWidth(p: real): (w: real)
    ensures w <= 100.0
    ensures p <= 100.0 ==> w == p
    ensures p > 100.0 ==> w == 100.0
  {
    if p < 100.0 then p else 100.0
  }

  datatype Colour = Red | Yellow | Green

  /** The bar's colour: red above 100%, else yellow above 80%, else green. */
  function BarColour(p: real): Colour {
    if p > 100.0 then Red else if p > 80.0 then Yellow else Green
  }

  /** Exactly one colour applies, decided by how the spending compares with
      the budget. */
  lemma ColourBySpending(spent: real, budget: real)
    ensures var c := BarColour(UsagePercent(spent, budget));
      && (c == Red <==> budget > 0.0 && spent > budget)
      && (c == Yellow <==> budget > 0.0 && spent <= budget && spent * 5.0 > budget * 4.0)
      && (c == Green <==> budget <= 0.0 || spent * 5.0 <= budget * 4.0)
  {
    OverHundredIff(spent, budget);
    OverEightyIff(spent, budget);
  }

  /** The warning under the bar: shown only above 100%, with the amount by
      which the spending exceeds the budget, which is then positive. */
  function Overrun(totalBudget: real, totalExpenses: real): (o: Option<real>)
    ensures o.Some? <==> UsagePercent(totalExpenses, totalBudget) > 100.0
    ensures o.Some? ==> o.value == totalExpenses - totalBudget && o.value > 0.0
  {
    OverHundredIff(totalExpenses, totalBudget);
    if UsagePercent(totalExpenses, totalBudget) > 100.0 then Some(totalExpenses - totalBudget) else None
  }

  /** Everything the card shows. */
  datatype Card = Card(totalBudget: real, totalExpenses: real, percentage: real,
                       barWidth: real, colour: Colour, overrun: Option<real>)

  /** The card for a budget map and the per-category spending map: both
      totals are the sums of all the map's values. */
  ghost function ProgressCard(budget: map<string, real>, byCategory: map<string, real>): (c: Card)
    ensures c.totalBudget == SumValues(budget) && c.totalExpenses == SumValues(byCategory)
    ensures c.percentage == UsagePercent(c.totalExpenses, c.totalBudget)
    ensures c.barWidth <= 100.0
    ensures c.overrun.Some? <==> c.totalBudget > 0.0 && c.totalExpenses > c.totalBudget
    ensures c.barWidth == BarWidth(c.percentage) && c.colour == BarColour(c.percentage)
    ensures c.overrun == Overrun(c.totalBudget, c.totalExpenses)
  {
    var totalBudget := SumValues(budget);
    var totalExpenses := SumValues(byCategory);
    var percentage := UsagePercent(totalExpenses, totalBudget);
    OverHundredIff(totalExpenses, totalBudget);
    Card(totalBudget, totalExpenses, percentage, BarWidth(percentage), BarColour(percentage),
         Overrun(totalBudget, totalExpenses))
  }
}
