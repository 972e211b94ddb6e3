/** The metrics of the visualisation view (app.py:102-104): total income,
    total expense and the remaining budget of one period. */
module Summary {
  import opened Seqs
  import opened Categories

  datatype Metrics = Metrics(totalIncome: nat, totalExpense: nat, remaining: int)

  /** Python's `sum(d.values())`, iterating the dict's values in order. It is
      the reference implementation for the recursive `Sum` the metrics and
      the flow-graph lemmas are stated with. */
  method SumAmounts(es: Entries) returns (total: nat)
    ensures total == Sum(Values(es))
  {
    total := 0;
    var i := 0;
    while i < |es|
      invariant 0 <= i <= |es|
      invariant total == Sum(Values(es)[..i])
    {
      assert Values(es)[..i + 1][..i] == Values(es)[..i];
      total := total + es[i].1;
      i := i + 1;
    }
    assert Values(es)[..i] == Values(es);
  }

  /** The three metrics. The remaining budget is what is left of the income
      once every expense is paid: it is negative exactly when expenses exceed
      income, and it is never clamped. */
  function Summarize(incomes: Entries, expenses: Entries): (m: Metrics)
    ensures m.remaining + m.totalExpense == m.totalIncome
    ensures m.remaining < 0 <==> m.totalExpense > m.totalIncome
  {
    var income := Sum(Values(incomes));
    var expense := Sum(Values(expenses));
    Metrics(income, expense, income - expense)
  }

  /** A period whose every amount is zero has all three metrics zero. */
  lemma AllZeroSummary(incomes: Entries, expenses: Entries)
    requires forall i :: 0 <= i < |incomes| ==> incomes[i].1 == 0
    requires forall j :: 0 <= j < |expenses| ==> expenses[j].1 == 0
    ensures Summarize(incomes, expenses) == Metrics(0, 0, 0)
  {
    SumZeros(Values(incomes));
    SumZeros(Values(expenses));
  }

  /** Example of `Summarize`'s contract: an overspent period is reported with
      a negative remaining budget. */
  lemma OverspendIsNegative()
    ensures Summarize([("Salary", 10)], [("Rent", 30)]).remaining == -20
  {
    assert Values([("Salary", 10)]) == [10];
    assert Values([("Rent", 30)]) == [30];
  }
}
