/** The period store of database.py over an abstract key-value backend.
    `db.put` is an upsert into a map from key to document, `db.get` a lookup
    that yields None for an absent key, and `db.fetch` lists the stored
    documents in the backend's enumeration order, fixed here as the order in
    which keys were first written. */
module PeriodStore {
  import opened Wrappers
  import opened Seqs
  import opened Categories

  /** `{"key": period, "incomes": ..., "expenses": ..., "comment": ...}`. */
  datatype Document = Document(key: string, incomes: Entries, expenses: Entries, comment: string)

  /** The backend's contents: the documents by key, and the enumeration
      order `fetch` follows. */
  datatype Store = Store(order: seq<string>, docs: map<string, Document>)

  /** Every stored document sits under its own key, and the enumeration
      order lists each stored key exactly once. */
  predicate Valid(s: Store) {
    && Distinct(s.order)
    && (forall k :: k in s.order ==> k in s.docs)
    && (forall k :: k in s.docs ==> k in s.order)
    && (forall k :: k in s.docs ==> s.docs[k].key == k)
  }

  /** The backend before anything is saved. */
  function EmptyStore(): (s: Store)
    ensures Valid(s)
    ensures s.docs == map[]
  {
    Store([], map[])
  }

  /** `insert_period`: puts the document built from the arguments under
      `period`, replacing any document already there, and returns it. */
  function InsertPeriod(s: Store, period: string, incomes: Entries, expenses: Entries, comment: string)
    : (r: (Store, Document))
    requires Valid(s)
    ensures Valid(r.0)
    ensures r.1.key == period && r.1.incomes == incomes
    ensures r.1.expenses == expenses && r.1.comment == comment
    ensures period in r.0.docs && r.0.docs[period] == r.1
    ensures r.0.docs.Keys == s.docs.Keys + {period}
    ensures forall k :: k in s.docs && k != period ==> k in r.0.docs && r.0.docs[k] == s.docs[k]
  {
    var doc := Document(period, incomes, expenses, comment);
    var order := if period in s.docs then s.order else s.order + [period];
    (Store(order, s.docs[period := doc]), doc)
  }

  /** `get_period`: the document stored under `period`, or None. */
  function GetPeriod(s: Store, period: string): (r: Option<Document>)
    requires Valid(s)
    ensures r.Some? <==> period in s.docs
    ensures r.Some? ==> r.value == s.docs[period] && r.value.key == period
  {
    if period in s.docs then Some(s.docs[period]) else None
  }

  /** `fetch_all_periods`: every stored document, once each, in enumeration
      order. */
  function FetchAllPeriods(s: Store): (items: seq<Document>)
    requires Valid(s)
    ensures |items| == |s.order|
    ensures forall i :: 0 <= i < |items| ==> items[i] == s.docs[s.order[i]]
    ensures forall k :: k in s.docs ==> s.docs[k] in items
  {
    seq(|s.order|, i requires 0 <= i < |s.order| => s.docs[s.order[i]])
  }

  /** `get_all_periods`: the `"key"` field of every fetched document, in
      fetch order. */
  function GetAllPeriods(s: Store): (keys: seq<string>)
    requires Valid(s)
    ensures |keys| == |FetchAllPeriods(s)|
    ensures forall i :: 0 <= i < |keys| ==> keys[i] == FetchAllPeriods(s)[i].key
  {
    var items := FetchAllPeriods(s);
    seq(|items|, i requires 0 <= i < |items| => items[i].key)
  }

  /** The listed keys are exactly the stored keys, each once. */
  lemma ListedKeysAreStoredKeys(s: Store)
    requires Valid(s)
    ensures forall k :: k in GetAllPeriods(s) <==> k in s.docs
    ensures Distinct(GetAllPeriods(s))
  {
    assert GetAllPeriods(s) == s.order;
  }

  /** Reading a period right after saving it yields the saved document. */
  lemma GetAfterInsert(s: Store, period: string, incomes: Entries, expenses: Entries, comment: string)
    requires Valid(s)
    ensures GetPeriod(InsertPeriod(s, period, incomes, expenses, comment).0, period)
            == Some(Document(period, incomes, expenses, comment))
  {
  }

  /** Saving one period leaves what every other key reads unchanged. */
  lemma InsertFrame(s: Store, period: string, incomes: Entries, expenses: Entries, comment: string, other: string)
    requires Valid(s)
    requires other != period
    ensures GetPeriod(InsertPeriod(s, period, incomes, expenses, comment).0, other) == GetPeriod(s, other)
  {
  }

  /** A key nobody saved reads as None, never as a default document. */
  lemma GetNeverInserted(s: Store, period: string)
    requires Valid(s)
    requires period !in s.order
    ensures GetPeriod(s, period) == None
  {
  }

  /** Last write wins: saving twice under one key leaves the same backend as
      saving only the second document. */
  lemma InsertTwiceReplaces(s: Store, period: string,
                            inc1: Entries, exp1: Entries, c1: string,
                            inc2: Entries, exp2: Entries, c2: string)
    requires Valid(s)
    ensures InsertPeriod(InsertPeriod(s, period, inc1, exp1, c1).0, period, inc2, exp2, c2).0
            == InsertPeriod(s, period, inc2, exp2, c2).0
  {
    var s1 := InsertPeriod(s, period, inc1, exp1, c1).0;
    var doc2 := Document(period, inc2, exp2, c2);
    assert s1.docs[period := doc2] == s.docs[period := doc2];
  }

  /** A saved period is listed, and the listing grows by one key exactly
      when the key is new. */
  lemma InsertListed(s: Store, period: string, incomes: Entries, expenses: Entries, comment: string)
    requires Valid(s)
    ensures period in GetAllPeriods(InsertPeriod(s, period, incomes, expenses, comment).0)
    ensures |GetAllPeriods(InsertPeriod(s, period, incomes, expenses, comment).0)|
            == if period in s.docs then |GetAllPeriods(s)| else |GetAllPeriods(s)| + 1
  {
    var s' := InsertPeriod(s, period, incomes, expenses, comment).0;
    ListedKeysAreStoredKeys(s');
  }
}
