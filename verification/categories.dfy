/** The configured income and expense categories (app.py:12-13) and the
    ordered category-to-amount lists that stand for the Python dicts a
    period record carries. */
module Categories {
  import opened Seqs

  /** One dict entry: a category label and its whole-unit amount. */
  type Entry = (string, nat)

  /** An insertion-ordered dict from category label to amount. */
  type Entries = seq<Entry>

  const IncomeCategories: seq<string> := ["Salary", "Blog", "Other Income"]

  const ExpenseCategories: seq<string> :=
    ["Rent", "Utilities", "Groceries", "Car", "Other Expenses", "Saving"]

  /** The label of the synthetic aggregator node of the flow graph. */
  const AggregatorLabel: string := "Total Income"

  /** `list(d.keys())`. */
  function Keys(es: Entries): (r: seq<string>)
    ensures |r| == |es|
    ensures forall i :: 0 <= i < |es| ==> r[i] == es[i].0
  {
    seq(|es|, i requires 0 <= i < |es| => es[i].0)
  }

  /** `list(d.values())`. */
  function Values(es: Entries): (r: seq<nat>)
    ensures |r| == |es|
    ensures forall i :: 0 <= i < |es| ==> r[i] == es[i].1
  {
    seq(|es|, i requires 0 <= i < |es| => es[i].1)
  }

  /** The form's widget values, one per widget key; `number_input` with
      `min_value=0` never yields a negative amount. */
  type Session = map<string, nat>

  /** Every category of `cats` has a widget value in `session`. */
  predicate Covers(session: Session, cats: seq<string>) {
    forall c :: c in cats ==> c in session
  }

  /** `{c: session[c] for c in cats}`: one entry per configured category, in
      configured order, holding the amount typed into that category's field. */
  function CategoryEntries(cats: seq<string>, session: Session): (es: Entries)
    requires Distinct(cats)
    requires Covers(session, cats)
    ensures Keys(es) == cats
    ensures forall i :: 0 <= i < |cats| ==> es[i].1 == session[cats[i]]
  {
    seq(|cats|, i requires 0 <= i < |cats| => (cats[i], session[cats[i]]))
  }

  /** The node labels of the configured categories and the aggregator never
      collide, so every label lookup finds its own node. */
  lemma ConfiguredLabelsDistinct()
    ensures Distinct(IncomeCategories + [AggregatorLabel] + ExpenseCategories)
  {
    var all := IncomeCategories + [AggregatorLabel] + ExpenseCategories;
    assert all == ["Salary", "Blog", "Other Income", "Total Income",
                   "Rent", "Utilities", "Groceries", "Car", "Other Expenses", "Saving"];
  }
}
