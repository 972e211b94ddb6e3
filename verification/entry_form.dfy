/** The save branch of the data-entry form (app.py:46-85): the period is
    saved only when a month and a year are both selected; the key and the
    two category dicts are then built from the form and written to the store.
    Widget rendering and the success/warning messages are not modelled. */
module EntryForm {
  import opened Wrappers
  import opened Categories
  import opened PeriodKey
  import opened PeriodStore

  /** The year drop-down's value: the empty first option or a year. */
  datatype YearChoice = NoYear | Year(value: int)

  /** `list(calendar.month_name)`: an empty string, then the month names.
      The names depend on the locale; the English ones stand for any locale,
      and the facts proved here only use that the first option is empty and
      the other twelve are not. */
  const MonthOptions: seq<string> :=
    ["", "January", "February", "March", "April", "May", "June", "July",
     "August", "September", "October", "November", "December"]

  /** `["", today.year, today.year - 1]`, with the current year passed in. */
  function YearOptions(thisYear: int): seq<YearChoice>
  {
    [NoYear, Year(thisYear), Year(thisYear - 1)]
  }

  /** Python truthiness of `selected_month and selected_year`: the empty
      string, the empty option and the integer 0 are false. */
  predicate Selected(month: string, year: YearChoice) {
    month != "" && year.Year? && year.value != 0
  }

  datatype Outcome = Saved(key: string) | MissingSelection

  /** Submitting the form: either the period is written under
      `str(year) + "_" + month` with one entry per configured category, or
      nothing is written and the missing-data warning is shown. */
  function SubmitEntry(s: Store, month: string, year: YearChoice, session: Session, comment: string)
    : (r: (Outcome, Store))
    requires Valid(s)
    requires Covers(session, IncomeCategories) && Covers(session, ExpenseCategories)
    ensures Valid(r.1)
    ensures r.0.Saved? <==> Selected(month, year)
    ensures r.0.MissingSelection? ==> r.1 == s
    ensures r.0.Saved? ==> r.0.key == Key(year.value, month)
    ensures r.0.Saved? ==>
      GetPeriod(r.1, r.0.key)
      == Some(Document(r.0.key, CategoryEntries(IncomeCategories, session),
                       CategoryEntries(ExpenseCategories, session), comment))
    ensures r.0.Saved? ==> forall k :: k != r.0.key ==> GetPeriod(r.1, k) == GetPeriod(s, k)
  {
    if Selected(month, year) then
      var period := Key(year.value, month);
      var incomes := CategoryEntries(IncomeCategories, session);
      var expenses := CategoryEntries(ExpenseCategories, session);
      (Saved(period), InsertPeriod(s, period, incomes, expenses, comment).0)
    else
      (MissingSelection, s)
  }

  /** A selected period is stored with one entry per configured category, in
      configured order, each holding the amount typed into that field. */
  lemma SubmitStoresForm(s: Store, month: string, year: YearChoice, session: Session, comment: string)
    requires Valid(s)
    requires Covers(session, IncomeCategories) && Covers(session, ExpenseCategories)
    requires Selected(month, year)
    ensures var (out, s') := SubmitEntry(s, month, year, session, comment);
      && out.Saved?
      && out.key in s'.docs
      && var d := s'.docs[out.key];
      && d.comment == comment
      && Keys(d.incomes) == IncomeCategories && Keys(d.expenses) == ExpenseCategories
      && (forall i :: 0 <= i < |d.incomes| ==> d.incomes[i].1 == session[d.incomes[i].0])
      && (forall i :: 0 <= i < |d.expenses| ==> d.expenses[i].1 == session[d.expenses[i].0])
  {
    var (out, s') := SubmitEntry(s, month, year, session, comment);
    var d := s'.docs[out.key];
    assert GetPeriod(s', out.key) == Some(d);
  }

  /** The drop-downs start on their empty options, so submitting the form
      untouched saves nothing; every other pair of options saves. */
  lemma OptionSelection(thisYear: int, i: nat, j: nat)
    requires 2 <= thisYear
    requires i < |MonthOptions| && j < 3
    ensures Selected(MonthOptions[i], YearOptions(thisYear)[j]) <==> i > 0 && j > 0
  {
  }

  /** Submitting with the initial selections leaves the store unchanged. */
  lemma UntouchedFormSavesNothing(s: Store, thisYear: int, session: Session, comment: string)
    requires Valid(s)
    requires Covers(session, IncomeCategories) && Covers(session, ExpenseCategories)
    ensures SubmitEntry(s, MonthOptions[0], YearOptions(thisYear)[0], session, comment)
            == (MissingSelection, s)
  {
  }

  /** Two saves land under the same key only for the same month and year,
      whatever amounts and comments each form carried. */
  lemma SavedKeysSeparatePeriods(s1: Store, m1: string, y1: YearChoice, ses1: Session, c1: string,
                                 s2: Store, m2: string, y2: YearChoice, ses2: Session, c2: string)
    requires Valid(s1) && Valid(s2)
    requires Covers(ses1, IncomeCategories) && Covers(ses1, ExpenseCategories)
    requires Covers(ses2, IncomeCategories) && Covers(ses2, ExpenseCategories)
    requires Selected(m1, y1) && Selected(m2, y2)
    requires SubmitEntry(s1, m1, y1, ses1, c1).0 == SubmitEntry(s2, m2, y2, ses2, c2).0
    ensures m1 == m2 && y1 == y2
  {
    KeyInjective(y1.value, m1, y2.value, m2);
  }
}
