/** The data fed to the sankey chart (app.py:112-117): node labels and three
    parallel edge lists. Rendering itself is not modelled. */
module FlowGraph {
  import opened Seqs
  import opened Categories

  datatype Graph = Graph(labels: seq<string>, source: seq<nat>, target: seq<nat>, value: seq<nat>)

  /** The edge lists are parallel and every endpoint names a node. */
  predicate WellFormed(g: Graph) {
    && |g.source| == |g.target| == |g.value|
    && (forall k :: 0 <= k < |g.source| ==> g.source[k] < |g.labels|)
    && (forall k :: 0 <= k < |g.target| ==> g.target[k] < |g.labels|)
  }

  /** `[label.index(n) for n in names]`. */
  function LookupAll(labels: seq<string>, names: seq<string>): (r: seq<nat>)
    requires forall j :: 0 <= j < |names| ==> names[j] in labels
    ensures |r| == |names|
    ensures forall j :: 0 <= j < |names| ==> r[j] < |labels| && labels[r[j]] == names[j]
    ensures forall j :: 0 <= j < |names| ==> forall i :: 0 <= i < r[j] ==> labels[i] != names[j]
  {
    seq(|names|, j requires 0 <= j < |names| => IndexOf(labels, names[j]))
  }

  /** `list(incomes.keys()) + ["Total Income"] + list(expenses.keys())`:
      income nodes, then the aggregator, then expense nodes. */
  function NodeLabels(incomes: Entries, expenses: Entries): (labels: seq<string>)
    ensures |labels| == |incomes| + 1 + |expenses|
    ensures forall i :: 0 <= i < |incomes| ==> labels[i] == incomes[i].0
    ensures labels[|incomes|] == AggregatorLabel
    ensures forall k :: |incomes| < k < |labels| ==> labels[k] == expenses[k - |incomes| - 1].0
  {
    Keys(incomes) + [AggregatorLabel] + Keys(expenses)
  }

  /** `list(range(n)) + [n] * m`: income edge `i` leaves node `i`, every
      expense edge leaves the aggregator node `n`. */
  function Sources(n: nat, m: nat): (source: seq<nat>)
    ensures |source| == n + m
    ensures forall i :: 0 <= i < n ==> source[i] == i
    ensures forall k :: n <= k < n + m ==> source[k] == n
  {
    Range(n) + Repeat(n, m)
  }

  /** `[n] * n + [label.index(e) for e in names]`: every income edge enters
      the aggregator node `n`, expense edge `j` enters the first node
      labelled `names[j]`. */
  function Targets(labels: seq<string>, n: nat, names: seq<string>): (target: seq<nat>)
    requires forall j :: 0 <= j < |names| ==> names[j] in labels
    ensures |target| == n + |names|
    ensures forall i :: 0 <= i < n ==> target[i] == n
    ensures forall k :: n <= k < |target| ==>
      target[k] < |labels| && labels[target[k]] == names[k - n]
    ensures forall k :: n <= k < |target| ==>
      forall i :: 0 <= i < target[k] ==> labels[i] != names[k - n]
  {
    Repeat(n, n) + LookupAll(labels, names)
  }

  /** `list(incomes.values()) + list(expenses.values())`. */
  function Weights(incomes: Entries, expenses: Entries): (value: seq<nat>)
    ensures |value| == |incomes| + |expenses|
    ensures forall i :: 0 <= i < |incomes| ==> value[i] == incomes[i].1
    ensures forall k :: |incomes| <= k < |value| ==> value[k] == expenses[k - |incomes|].1
  {
    Values(incomes) + Values(expenses)
  }

  /** One edge from each income node into the aggregator and one edge from
      the aggregator to each expense node, weighted by the amounts, zero
      weights kept. */
  function BuildFlow(incomes: Entries, expenses: Entries): (g: Graph)
    ensures WellFormed(g)
    ensures g.labels == NodeLabels(incomes, expenses)
    ensures |g.source| == |incomes| + |expenses|
    ensures forall i :: 0 <= i < |incomes| ==>
      g.source[i] == i && g.target[i] == |incomes| && g.value[i] == incomes[i].1
    ensures forall k :: |incomes| <= k < |g.source| ==>
      && g.source[k] == |incomes|
      && g.labels[g.target[k]] == expenses[k - |incomes|].0
      && (forall i :: 0 <= i < g.target[k] ==> g.labels[i] != expenses[k - |incomes|].0)
      && g.value[k] == expenses[k - |incomes|].1
  {
    var n := |incomes|;
    var labels := NodeLabels(incomes, expenses);
    var names := Keys(expenses);
    assert forall j :: 0 <= j < |names| ==> names[j] == labels[j + n + 1];
    Graph(labels, Sources(n, |expenses|), Targets(labels, n, names), Weights(incomes, expenses))
  }

  /** In a label list without repeats, the lookup of the name that sits at
      node `n + 1 + j` finds exactly that node. */
  lemma TargetsDistinct(labels: seq<string>, n: nat, names: seq<string>, j: nat)
    requires forall j :: 0 <= j < |names| ==> names[j] in labels
    requires Distinct(labels)
    requires j < |names| && n + 1 + j < |labels| && labels[n + 1 + j] == names[j]
    ensures Targets(labels, n, names)[n + j] == n + 1 + j
  {
    DistinctPositions(labels, Targets(labels, n, names)[n + j], n + 1 + j);
  }

  /** When no two node labels coincide (as for the configured categories),
      expense edge `j` ends at node `|incomes| + 1 + j`. */
  lemma ExpenseTargetsWhenDistinct(incomes: Entries, expenses: Entries, j: nat)
    requires Distinct(Keys(incomes) + [AggregatorLabel] + Keys(expenses))
    requires j < |expenses|
    ensures BuildFlow(incomes, expenses).target[|incomes| + j] == |incomes| + 1 + j
  {
    var n := |incomes|;
    var labels := NodeLabels(incomes, expenses);
    var names := Keys(expenses);
    assert labels[n + 1 + j] == names[j];
    TargetsDistinct(labels, n, names, j);
  }

  /** When an expense shares its label with an income, `label.index` finds
      the income node first, so the expense edge runs back into it. */
  lemma RepeatedLabelTargetsFirstNode()
    ensures BuildFlow([("A", 1)], [("A", 2)]).target[1] == 0
  {
    var g := BuildFlow([("A", 1)], [("A", 2)]);
    assert g.labels[0] == "A";
  }

  /** An edge read through the node labels: (from, to, weight). */
  function EdgeView(g: Graph, k: nat): (string, string, nat)
    requires WellFormed(g) && k < |g.source|
  {
    (g.labels[g.source[k]], g.labels[g.target[k]], g.value[k])
  }

  /** The flow the chart shows, stated without node indices: each income
      category feeds the aggregator with its amount, and the aggregator feeds
      each expense category with its amount. This holds even when labels
      repeat, because an index lookup always finds a node of the same name. */
  lemma EdgesByLabel(incomes: Entries, expenses: Entries)
    ensures forall i :: 0 <= i < |incomes| ==>
      EdgeView(BuildFlow(incomes, expenses), i) == (incomes[i].0, AggregatorLabel, incomes[i].1)
    ensures forall j :: 0 <= j < |expenses| ==>
      EdgeView(BuildFlow(incomes, expenses), |incomes| + j) == (AggregatorLabel, expenses[j].0, expenses[j].1)
  {
    var g := BuildFlow(incomes, expenses);
    assert g.labels[|incomes|] == AggregatorLabel;
  }

  /** The weights into the aggregator add up to the total income and the
      weights out of it to the total expense, so the chart balances with the
      metrics shown above it. */
  lemma FlowConservation(incomes: Entries, expenses: Entries)
    ensures Sum(BuildFlow(incomes, expenses).value[..|incomes|]) == Sum(Values(incomes))
    ensures Sum(BuildFlow(incomes, expenses).value[|incomes|..]) == Sum(Values(expenses))
    ensures Sum(BuildFlow(incomes, expenses).value) == Sum(Values(incomes)) + Sum(Values(expenses))
  {
    var g := BuildFlow(incomes, expenses);
    assert g.value[..|incomes|] == Values(incomes);
    assert g.value[|incomes|..] == Values(expenses);
    assert g.value == Values(incomes) + Values(expenses);
    SumAppend(Values(incomes), Values(expenses));
  }
}
