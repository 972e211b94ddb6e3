/** The plot branch of the visualisation view (app.py:88-117): the selected
    period is read back and turned into its metrics and its flow graph.
    The chart rendering is not modelled. */
module Visualization {
  import opened Wrappers
  import opened Seqs
  import opened Categories
  import opened Summary
  import opened FlowGraph
  import opened PeriodStore
  import opened EntryForm

  datatype Plot = Plot(metrics: Metrics, graph: Graph, comment: string)

  /** Reads the period and derives what the view shows. None stands for a
      period the store does not hold. */
  function PlotPeriod(s: Store, period: string): (r: Option<Plot>)
    requires Valid(s)
    ensures r.Some? <==> period in s.docs
    ensures r.Some? ==> r.value.comment == s.docs[period].comment
    ensures r.Some? ==> r.value.graph == BuildFlow(s.docs[period].incomes, s.docs[period].expenses)
    ensures r.Some? ==> r.value.metrics.totalIncome == Sum(Values(s.docs[period].incomes))
    ensures r.Some? ==> r.value.metrics.totalExpense == Sum(Values(s.docs[period].expenses))
    ensures r.Some? ==> r.value.metrics.remaining
                        == r.value.metrics.totalIncome - r.value.metrics.totalExpense
  {
    match GetPeriod(s, period)
    case None => None
    case Some(doc) =>
      Some(Plot(Summarize(doc.incomes, doc.expenses), BuildFlow(doc.incomes, doc.expenses), doc.comment))
  }

  /** Plotting a period whose dicts carry exactly the configured categories
      shows them as nodes in configured order around the aggregator, with
      expense edge `k - 3` ending at node `k + 1`, and edge weights that add
      up to the two totals. */
  lemma ConfiguredFlow(incomes: Entries, expenses: Entries)
    requires Keys(incomes) == IncomeCategories && Keys(expenses) == ExpenseCategories
    ensures var g := BuildFlow(incomes, expenses);
      && g.labels == IncomeCategories + [AggregatorLabel] + ExpenseCategories
      && (forall k :: 3 <= k < |g.target| ==> g.target[k] == k + 1)
      && Sum(g.value[..3]) == Summarize(incomes, expenses).totalIncome
      && Sum(g.value[3..]) == Summarize(incomes, expenses).totalExpense
  {
    var g := BuildFlow(incomes, expenses);
    ConfiguredLabelsDistinct();
    forall k | 3 <= k < |g.target|
      ensures g.target[k] == k + 1
    {
      ExpenseTargetsWhenDistinct(incomes, expenses, k - 3);
    }
    FlowConservation(incomes, expenses);
  }

  /** Saving a period from the form and plotting it shows the comment, the
      configured flow, and totals that are the sums of the amounts typed into
      the form. */
  lemma SaveThenPlot(s: Store, month: string, year: YearChoice, session: Session, comment: string)
    requires Valid(s)
    requires Covers(session, IncomeCategories) && Covers(session, ExpenseCategories)
    requires Selected(month, year)
    ensures var (out, s') := SubmitEntry(s, month, year, session, comment);
      && out.Saved?
      && out.key in s'.docs
      && var d := s'.docs[out.key];
      && Keys(d.incomes) == IncomeCategories && Keys(d.expenses) == ExpenseCategories
      && (forall i :: 0 <= i < |d.incomes| ==> d.incomes[i].1 == session[d.incomes[i].0])
      && (forall i :: 0 <= i < |d.expenses| ==> d.expenses[i].1 == session[d.expenses[i].0])
      && PlotPeriod(s', out.key) == Some(Plot(Summarize(d.incomes, d.expenses), BuildFlow(d.incomes, d.expenses), comment))
      && BuildFlow(d.incomes, d.expenses).labels == IncomeCategories + [AggregatorLabel] + ExpenseCategories
      && Summarize(d.incomes, d.expenses).totalIncome == Sum(Values(d.incomes))
      && Summarize(d.incomes, d.expenses).totalExpense == Sum(Values(d.expenses))
  {
    SubmitStoresForm(s, month, year, session, comment);
    var (out, s') := SubmitEntry(s, month, year, session, comment);
    var d := s'.docs[out.key];
    ConfiguredFlow(d.incomes, d.expenses);
    var p := PlotPeriod(s', out.key).value;
    assert p.metrics == Summarize(d.incomes, d.expenses);
  }

  /** A period with incomes 100, 20, 50 and expenses 10, 10, 10, 20, 30, 10
      shows totals 170 and 90 and a remaining budget of 80. */
  lemma WorkedExampleSummary()
    ensures Summarize(ExampleIncomes, ExampleExpenses) == Metrics(170, 90, 80)
  {
    ExampleIncomeTotal();
    ExampleExpenseTotal();
  }

  lemma ExampleIncomeTotal()
    ensures Sum(Values(ExampleIncomes)) == 170
  {
    var amounts: seq<nat> := [100, 20, 50];
    assert Values(ExampleIncomes) == amounts;
    SumSnoc([], 100);
    SumSnoc([100], 20);
    SumSnoc([100, 20], 50);
    assert [100] + [20] == [100, 20] && [100, 20] + [50] == amounts;
  }

  lemma ExampleExpenseTotal()
    ensures Sum(Values(ExampleExpenses)) == 90
  {
    var amounts: seq<nat> := [10, 10, 10, 20, 30, 10];
    assert Values(ExampleExpenses) == amounts;
    ExpenseAmountsTotal();
  }

  lemma ExpenseAmountsTotal()
    ensures Sum([10, 10, 10, 20, 30, 10]) == 90
  {
    SumSnoc([], 10);
    SumSnoc([10], 10);
    SumSnoc([10, 10], 10);
    SumSnoc([10, 10, 10], 20);
    SumSnoc([10, 10, 10, 20], 30);
    SumSnoc([10, 10, 10, 20, 30], 10);
    assert [10] + [10] == [10, 10];
    assert [10, 10] + [10] == [10, 10, 10];
    assert [10, 10, 10] + [20] == [10, 10, 10, 20];
    assert [10, 10, 10, 20] + [30] == [10, 10, 10, 20, 30];
    assert [10, 10, 10, 20, 30] + [10] == [10, 10, 10, 20, 30, 10];
  }

  /** The same period's chart has ten nodes and nine edges. */
  lemma WorkedExampleGraph()
    ensures |BuildFlow(ExampleIncomes, ExampleExpenses).labels| == 10
    ensures |BuildFlow(ExampleIncomes, ExampleExpenses).source| == 9
  {
  }

  const ExampleIncomes: Entries := [("Salary", 100), ("Blog", 20), ("Other Income", 50)]

  const ExampleExpenses: Entries :=
    [("Rent", 10), ("Utilities", 10), ("Groceries", 10), ("Car", 20), ("Other Expenses", 30), ("Saving", 10)]
}
