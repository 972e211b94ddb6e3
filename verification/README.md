# Income and expense tracker: period store, metrics and flow graph

This project models the logic core of a small Streamlit income/expense
tracker. A user picks a month and a year, types an amount for each configured
income category (Salary, Blog, Other Income) and expense category (Rent,
Utilities, Groceries, Car, Other Expenses, Saving), adds a comment and saves
the period to a Deta Base key-value store. A second view reads a saved period
back, shows total income, total expense and the remaining budget, and feeds a
sankey chart. In that chart each income category flows into one "Total Income"
node and that node flows out to each expense category.

Modules, one per part of the program:

- `Seqs`: the Python list operations the code uses. These are `sum`,
  `range`, `[x] * n` and `list.index`. `list.index` is the first-occurrence
  lookup `IndexOf`.
- `Categories`: the configured category lists. Dicts are ordered
  `seq<(string, nat)>` lists, so dict key order is explicit. The form's dict
  comprehensions become `CategoryEntries`.
- `PeriodKey`: Python's `str` on an integer, and the period key
  `str(year) + "_" + month`. A parser reads the year and the month back from a
  key; it is used to prove that the key identifies its period.
- `PeriodStore`: `insert_period`, `get_period`, `fetch_all_periods` and
  `get_all_periods` over an abstract store. The store is a map from key to
  document plus the order in which `fetch` lists the documents.
- `Summary`: the three metrics.
- `FlowGraph`: the sankey chart's `label`, `source`, `target` and `value`
  lists.
- `EntryForm`: the save branch of the form. It covers the month/year truth
  test, the key and the two category dicts.
- `Visualization`: the plot branch. It reads a period back and derives its
  metrics and graph. It also holds the end-to-end property that saving a period
  and then plotting it gives the form's totals.

The current year is a parameter instead of a clock reading. The Deta backend
is a pure value: a `Store` passed in and returned.

## Model

| member | source | states |
|---|---|---|
| Seqs.IndexOf | app.py:114-116 | `label.index(x)` gives a position holding `x`, and no earlier position holds `x` (first occurrence) |
| Seqs.Sum | app.py:102-103 | Python's `sum` of non-negative amounts: every amount is at most the total; `SumAppend`, `SumZeros` and `SumAmounts` pin its value |
| Seqs.SumZeros | app.py:102-103 | a list of zero amounts sums to zero |
| Seqs.SumAppend | app.py:102-103 | the sum of two concatenated amount lists is the sum of the two sums |
| Categories.CategoryEntries | app.py:79-80 | the saved dict has one entry per configured category, in configured order, and each entry holds the amount typed into that category's field (a `nat`, because of `min_value=0`) |
| Categories.ConfiguredLabelsDistinct | app.py:12-13 | the configured income labels, "Total Income" and the configured expense labels are pairwise distinct |
| PeriodKey.NatToString | app.py:77 | `str(n)` is a non-empty run of decimal digits with no leading zero |
| PeriodKey.IntToString | app.py:77 | `str(year)` for any integer is non-empty and made of digits and the minus sign; `IntRoundTrip` pins its value |
| PeriodKey.IntRoundTrip | app.py:77 | reading `str(year)` back gives `year`, for every integer |
| PeriodKey.Key | app.py:76-78 | the key is exactly `str(year)`, then `_`, then the month name |
| PeriodKey.KeyRoundTrip | app.py:76-78 | splitting a key at its first `_` recovers the year and the month it was built from |
| PeriodKey.KeyInjective | app.py:76-78 | two different (year, month) pairs never share a key |
| Summary.SumAmounts | app.py:102-103 | Python's left-to-right `sum(d.values())` equals the recursive `Sum` of the dict's amounts that the metrics use |
| Summary.Summarize | app.py:102-104 | the remaining budget plus total expense equals total income, and the budget is negative exactly when expenses exceed income (never clamped); `AllZeroSummary` and `FlowConservation` state its totals |
| Summary.AllZeroSummary | app.py:102-104 | an all-zero period gives zero totals and zero remaining budget, not an error |
| Summary.OverspendIsNegative | app.py:104 | an example of `Summarize`'s contract: income 10 against expense 30 shows a remaining budget of -20 |
| FlowGraph.NodeLabels | app.py:112 | labels are the income keys, then "Total Income" at index `len(incomes)`, then the expense keys; the length is `len(incomes) + 1 + len(expenses)` |
| FlowGraph.Sources | app.py:113 | income edge `i` leaves node `i`; every expense edge leaves the aggregator node |
| FlowGraph.LookupAll | app.py:115 | each looked-up index is in range, names a node with that label, and no earlier node has that label (first occurrence) |
| FlowGraph.Targets | app.py:114-116 | every income edge enters the aggregator node; expense edge `j` enters the first node labelled with expense `j` |
| FlowGraph.Weights | app.py:117 | the weights are the income amounts, then the expense amounts, zero weights kept |
| FlowGraph.BuildFlow | app.py:112-117 | `source`, `target` and `value` all have length `len(incomes) + len(expenses)`, and every index is a node; income edge `i` runs from node `i` to the aggregator; each expense edge runs from the aggregator to the first node carrying its label; each edge carries its category's amount |
| FlowGraph.TargetsDistinct | app.py:114-116 | in a label list without repeats, the lookup of the name at node `n + 1 + j` finds exactly that node |
| FlowGraph.ExpenseTargetsWhenDistinct | app.py:114-116 | when no two labels coincide, expense edge `j` targets node `len(incomes) + 1 + j` |
| FlowGraph.RepeatedLabelTargetsFirstNode | app.py:115 | when an expense shares its label with an income, the expense edge runs back into the income node (income "A" and expense "A" give expense target 0) |
| FlowGraph.EdgesByLabel | app.py:112-117 | read through labels, the edges are (income, "Total Income", amount) and ("Total Income", expense, amount), even with repeated labels |
| FlowGraph.FlowConservation | app.py:102-117 | the first `len(incomes)` weights sum to total income and the rest sum to total expense |
| PeriodStore.InsertPeriod | database.py:17-21 | the stored document has key `period`, the arguments unchanged, and is returned; the key set gains `period`; other keys keep their documents |
| PeriodStore.GetPeriod | database.py:30-32 | the result is a document exactly when the key is stored, and it is the document stored under that key |
| PeriodStore.FetchAllPeriods | database.py:24-27 | each stored document is fetched once, in the store's enumeration order |
| PeriodStore.GetAllPeriods | database.py:35-38 | one key per fetched item, in fetch order, each being that item's `"key"` field |
| PeriodStore.ListedKeysAreStoredKeys | database.py:35-38 | the listed keys are exactly the stored keys, without repeats |
| PeriodStore.GetAfterInsert | database.py:17-32 | `get_period` right after `insert_period` returns the document just saved |
| PeriodStore.InsertFrame | database.py:19-21 | saving under one key leaves what every other key reads unchanged |
| PeriodStore.GetNeverInserted | database.py:30-32 | a key never saved reads as None |
| PeriodStore.InsertTwiceReplaces | database.py:19-21 | saving twice under one key leaves the same store as saving only the second document (last write wins) |
| PeriodStore.InsertListed | database.py:17-38 | a saved period is listed, and the listing grows by one exactly when the key is new |
| EntryForm.Selected | app.py:75 | Python's truth test `selected_month and selected_year`: the empty month, the empty year option and the year 0 are false; `OptionSelection` and `SubmitEntry`'s `Saved? <==> Selected` clause state its use |
| EntryForm.SubmitEntry | app.py:74-85 | the form saves exactly when a month and a nonzero year are selected, under `str(year)_month`, with the category dicts and comment; otherwise the store is unchanged; other keys are untouched either way |
| EntryForm.OptionSelection | app.py:24-25 | with the drop-down options and the test at line 75, a save happens exactly when neither the month nor the year is on its empty first option |
| EntryForm.UntouchedFormSavesNothing | app.py:84-85 | submitting with the initial empty selections takes the warning branch and writes nothing |
| EntryForm.SubmitStoresForm | app.py:75-82 | a selected period is stored with the comment and one entry per configured category, in configured order, each holding the amount typed into that field |
| EntryForm.SavedKeysSeparatePeriods | app.py:76-78 | two saves, with any amounts and comments, land under the same key only for the same month and year |
| Visualization.PlotPeriod | app.py:96-117 | a stored period yields its comment, totals equal to the sums of its amounts, remaining = income - expense, and the flow graph built from its two dicts; an absent period yields None |
| Visualization.ConfiguredFlow | app.py:112-117 | for the configured categories the labels are the three incomes, "Total Income", then the six expenses; expense edges target nodes 4 to 9; the weights balance the totals |
| Visualization.SaveThenPlot | app.py:74-117 | plotting a period just saved from the form shows the form's comment, the sums of the typed amounts and the configured node list |
| Visualization.WorkedExampleSummary | app.py:102-104 | incomes 100, 20, 50 and expenses 10, 10, 10, 20, 30, 10 give totals 170 and 90 and a remaining budget of 80 |
| Visualization.WorkedExampleGraph | app.py:112-117 | the same period gives 10 nodes and 9 edges |

## Left out

- Streamlit presentation is not modelled: page setup, CSS, the navigation menu, forms, expanders, metric widgets and the success/warning messages (app.py:20-73, app.py:105-109). Only the branch taken at app.py:75 is modelled.
- Plotly rendering is not modelled: node padding, thickness, colour, layout and `st.plotly_chart` (app.py:119-127). Only the label and edge lists fed to it are.
- The Deta SDK is not modelled: environment loading, `DETA_KEY`, and the `Deta(...)` and `deta.Base(...)` connection (database.py:1-14). These are foreign I/O; the backend is an abstract map.
- Backend failures, network errors and `fetch` pagination are not modelled. The model treats every store call as succeeding.
- `datetime.today()` is not read; the current year is a parameter.
- The currency string formatting of the metrics is not modelled.
- PeriodStore.FetchAllPeriods: the order in which Deta's `fetch` lists documents is not visible in the source. The model fixes it as the order in which keys were first saved. The properties that the listing covers exactly the stored keys, once each, do not depend on that choice.
- Visualization.PlotPeriod: when the selected period is missing, the source calls `.get` on `None` and raises. The model returns None instead, and nothing is said about the crash.
- Seqs.IndexOf: Python's `list.index` raises `ValueError` for an absent element. The model requires the element to be present instead. The only caller looks up expense keys, which are always part of the label list.
- Documents keep their category lists as ordered lists. The model assumes the backend hands back each dict with its keys in the order they were saved.
- EntryForm.OptionSelection requires the current year to be at least 2. For year 1 the option `today.year - 1` would be 0, which Python treats as false.
- The code does not reject an empty key on save. No form-built key is empty anyway, since `PeriodKey.Key` always contains `_`.
- The code raises no validation error when a stored dict lacks a configured category. The metrics and graph are computed from whatever dicts are stored.
- Categories.CategoryEntries requires the category list to be free of repeats. Python's dict comprehension would collapse a repeated category into one entry, and the model does not cover that case. It is only ever applied to the configured lists, which are distinct.
