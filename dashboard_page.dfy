/** The dashboard page's state: the user's rows as loaded, the three filter
    selections, and the filtered rows the transaction list shows; plus the
    option lists of the category and month selectors. */
module DashboardPage {
  import opened Sequences
  import opened Strings
  import opened Records
  import Dashboard

  // ---------------------------------------------------------------------
  // Filters

  /** The three selector values; the empty string means "all". `kind` holds
      the type selector's value, "Income" or "Expense" when one is chosen. */
  datatype Filters = Filters(category: string, month: string, kind: string)

  const NoFilters := Filters("", "", "")

  predicate CategoryOk(f: Filters, r: ExpenseRow) {
    f.category == "" || r.category == f.category
  }

  predicate MonthOk(f: Filters, r: ExpenseRow) {
    f.month == "" || MonthKey(r.date) == f.month
  }

  predicate TypeOk(f: Filters, r: ExpenseRow) {
    f.kind == "" || TypeName(r.kind) == f.kind
  }

  /** A row is shown when it meets every criterion that is set. */
  predicate Matches(f: Filters, r: ExpenseRow) {
    CategoryOk(f, r) && MonthOk(f, r) && TypeOk(f, r)
  }

  function MatchesAll(f: Filters): ExpenseRow -> bool {
    r => Matches(f, r)
  }

  /** The rows shown under `f`: those that match, in their original order. */
  function Selected(rs: seq<ExpenseRow>, f: Filters): seq<ExpenseRow> {
    Keep(rs, MatchesAll(f))
  }

  // The three single-criterion filters the page applies one after another.

  function CategoryIs(c: string): ExpenseRow -> bool {
    (r: ExpenseRow) => r.category == c
  }

  function MonthIs(m: string): ExpenseRow -> bool {
    (r: ExpenseRow) => MonthKey(r.date) == m
  }

  function TypeIs(t: string): ExpenseRow -> bool {
    (r: ExpenseRow) => TypeName(r.kind) == t
  }

  /** The rows that meet the first `n` criteria (category, month, type). */
  function PassesFirst(f: Filters, n: nat): ExpenseRow -> bool {
    r => (n < 1 || CategoryOk(f, r)) && (n < 2 || MonthOk(f, r)) && (n < 3 || TypeOk(f, r))
  }

  /** Filtering by one more criterion, or skipping it when it is not set,
      takes the rows meeting the first `n` criteria to those meeting the
      first `n + 1`. */
  lemma {:induction false} StageCategory(rs: seq<ExpenseRow>, f: Filters)
    ensures (if f.category != "" then Keep(rs, CategoryIs(f.category)) else rs) == Keep(rs, PassesFirst(f, 1))
  {
    if f.category != "" {
      KeepCongruent(rs, CategoryIs(f.category), PassesFirst(f, 1));
    } else {
      KeepAll(rs, PassesFirst(f, 1));
    }
  }

  lemma {:induction false} StageMonth(rs: seq<ExpenseRow>, f: Filters)
    ensures (if f.month != "" then Keep(Keep(rs, PassesFirst(f, 1)), MonthIs(f.month)) else Keep(rs, PassesFirst(f, 1)))
            == Keep(rs, PassesFirst(f, 2))
  {
    if f.month != "" {
      KeepThenKeep(rs, PassesFirst(f, 1), MonthIs(f.month), PassesFirst(f, 2));
    } else {
      KeepCongruent(rs, PassesFirst(f, 1), PassesFirst(f, 2));
    }
  }

  lemma {:induction false} StageType(rs: seq<ExpenseRow>, f: Filters)
    ensures (if f.kind != "" then Keep(Keep(rs, PassesFirst(f, 2)), TypeIs(f.kind)) else Keep(rs, PassesFirst(f, 2)))
            == Selected(rs, f)
  {
    if f.kind != "" {
      KeepThenKeep(rs, PassesFirst(f, 2), TypeIs(f.kind), MatchesAll(f));
    } else {
      KeepCongruent(rs, PassesFirst(f, 2), MatchesAll(f));
    }
  }

  // ---------------------------------------------------------------------
  // Properties of filtering

  /** With no criterion set, every row is shown, in the same order. */
  lemma {:induction false} SelectedNoFilters(rs: seq<ExpenseRow>)
    ensures Selected(rs, NoFilters) == rs
  {
    KeepAll(rs, MatchesAll(NoFilters));
  }

  /** A row is shown exactly when it is one of the rows and matches. */
  lemma {:induction false} SelectedMembers(rs: seq<ExpenseRow>, f: Filters)
    ensures forall r :: r in Selected(rs, f) <==> r in rs && Matches(f, r)
  {
    KeepMembers(rs, MatchesAll(f));
  }

  /** The shown rows are the rows at some strictly increasing positions, and
      a position is among them exactly when its row matches. */
  lemma {:induction false} SelectedIsExactSubsequence(rs: seq<ExpenseRow>, f: Filters)
    ensures exists idx :: Embedding(idx, Selected(rs, f), rs)
                       && forall j :: 0 <= j < |rs| ==> (j in idx <==> Matches(f, rs[j]))
  {
    var idx := KeptIndices(rs, MatchesAll(f));
    KeptIndicesEmbed(rs, MatchesAll(f));
    KeptIndicesMembers(rs, MatchesAll(f));
    assert Embedding(idx, Selected(rs, f), rs);
  }

  /** Filtering the shown rows again changes nothing. */
  lemma {:induction false} SelectedIdempotent(rs: seq<ExpenseRow>, f: Filters)
    ensures Selected(Selected(rs, f), f) == Selected(rs, f)
  {
    KeepMembers(rs, MatchesAll(f));
    KeepAll(Selected(rs, f), MatchesAll(f));
  }

  /** A row put in front is shown first when it matches, and otherwise the
      shown rows are as before. */
  lemma {:induction false} SelectedAfterAdd(rs: seq<ExpenseRow>, f: Filters, row: ExpenseRow)
    ensures Selected([row] + rs, f) == if Matches(f, row) then [row] + Selected(rs, f) else Selected(rs, f)
  {
    assert ([row] + rs)[1..] == rs;
  }

  // ---------------------------------------------------------------------
  // Removing a row by id

  function IdIsNot(id: string): ExpenseRow -> bool {
    (r: ExpenseRow) => r.id != id
  }

  /** The rows without the one with id `id` (the filter run after a
      successful delete). */
  function WithoutId(rs: seq<ExpenseRow>, id: string): seq<ExpenseRow> {
    Keep(rs, IdIsNot(id))
  }

  /** After a delete no row has that id, every other row remains, and the
      remaining rows keep their relative order. */
  lemma {:induction false} WithoutIdExact(rs: seq<ExpenseRow>, id: string)
    ensures forall r :: r in WithoutId(rs, id) ==> r.id != id
    ensures forall r :: r in rs && r.id != id ==> r in WithoutId(rs, id)
    ensures exists idx :: Embedding(idx, WithoutId(rs, id), rs)
                       && forall j :: 0 <= j < |rs| ==> (j in idx <==> rs[j].id != id)
  {
    KeepMembers(rs, IdIsNot(id));
    var idx := KeptIndices(rs, IdIsNot(id));
    KeptIndicesEmbed(rs, IdIsNot(id));
    KeptIndicesMembers(rs, IdIsNot(id));
    assert Embedding(idx, WithoutId(rs, id), rs);
  }

  // ---------------------------------------------------------------------
  // Selector options

  /** The category of every row, in row order (`expenses.map(e => e.category)`). */
  function CategoriesOf(rs: seq<ExpenseRow>): seq<string> {
    if rs == [] then [] else CategoriesOf(rs[..|rs| - 1]) + [rs[|rs| - 1].category]
  }

  lemma {:induction false} CategoriesOfMembers(rs: seq<ExpenseRow>)
    ensures forall c :: c in CategoriesOf(rs) <==> exists r :: r in rs && r.category == c
  {
    if rs != [] {
      var p := rs[..|rs| - 1];
      assert rs == p + [rs[|rs| - 1]];
      CategoriesOfMembers(p);
    }
  }

  /** The category selector's options: each category of a row once, in the
      order of first appearance. */
  function CategoryOptions(rs: seq<ExpenseRow>): seq<string> {
    Dedup(CategoriesOf(rs))
  }

  /** The month selector's options: each month key of a row once, newest
      first. */
  function MonthOptions(rs: seq<ExpenseRow>): seq<string> {
    Reverse(Sort(Dedup(Dashboard.MonthsOf(rs))))
  }

  /** The category options hold every category that occurs, once, and
      nothing else. */
  lemma {:induction false} CategoryOptionsExact(rs: seq<ExpenseRow>)
    ensures Distinct(CategoryOptions(rs))
    ensures forall c :: c in CategoryOptions(rs) <==> exists r :: r in rs && r.category == c
  {
    DedupExact(CategoriesOf(rs));
    CategoriesOfMembers(rs);
  }

  /** The month options are strictly descending and hold exactly the month
      keys that occur (so each once). */
  lemma {:induction false} MonthOptionsExact(rs: seq<ExpenseRow>)
    ensures StrictlyDescending(MonthOptions(rs))
    ensures forall m :: m in MonthOptions(rs) <==> exists r :: r in rs && MonthKey(r.date) == m
  {
    var keys := Dedup(Dashboard.MonthsOf(rs));
    DedupExact(Dashboard.MonthsOf(rs));
    Dashboard.MonthsOfMembers(rs);
    SortMembers(keys);
    ReverseMembers(Sort(keys));
    ReverseStrictlyAscending(Sort(keys));
  }

  // ---------------------------------------------------------------------
  // The page state

  /** The page's state. Every update re-runs the filter, as the page's
      effect on `expenses` and `filters` does. */
  class Page {
    var expenses: seq<ExpenseRow>
    var filteredExpenses: seq<ExpenseRow>
    var filters: Filters

    /** The list shows exactly the rows the filters select. */
    predicate Valid()
      reads this
    {
      filteredExpenses == Selected(expenses, filters)
    }

    constructor()
      ensures expenses == [] && filteredExpenses == [] && filters == NoFilters
      ensures Valid()
    {
      expenses, filteredExpenses, filters := [], [], NoFilters;
    }

    /** Applies the set criteria one after another to a copy of the rows. */
    method ApplyFilters()
      modifies this
      ensures expenses == old(expenses) && filters == old(filters)
      ensures filteredExpenses == Selected(expenses, filters)
    {
      var f := filters;
      var filtered := expenses;
      StageCategory(expenses, f);
      StageMonth(expenses, f);
      StageType(expenses, f);
      if f.category != "" {
        filtered := Keep(filtered, CategoryIs(f.category));
      }
      if f.month != "" {
        filtered := Keep(filtered, MonthIs(f.month));
      }
      if f.kind != "" {
        filtered := Keep(filtered, TypeIs(f.kind));
      }
      filteredExpenses := filtered;
    }

    /** The rows the backend returned for the user, newest date first,
        replace the list (an absent result counts as no rows). */
    method Loaded(rows: seq<ExpenseRow>)
      modifies this
      ensures expenses == rows && filters == old(filters)
      ensures Valid()
    {
      expenses := rows;
      ApplyFilters();
    }

    /** The list update after the backend accepted a new row: it goes first. */
    method ExpenseAdded(row: ExpenseRow)
      modifies this
      ensures expenses == [row] + old(expenses) && filters == old(filters)
      ensures Valid()
    {
      expenses := [row] + expenses;
      ApplyFilters();
    }

    /** The list update after the backend deleted the row with id `id`. */
    method ExpenseDeleted(id: string)
      modifies this
      ensures expenses == WithoutId(old(expenses), id) && filters == old(filters)
      ensures Valid()
    {
      expenses := Keep(expenses, IdIsNot(id));
      ApplyFilters();
    }

    /** Whether the Clear All button is shown. */
    function ShowsClearAll(): (shown: bool)
      reads this
      ensures shown <==> filters != NoFilters
    {
      filters.category != "" || filters.month != "" || filters.kind != ""
    }

    /** Clear All: every criterion back to empty, so every row is shown. */
    method ClearAll()
      modifies this
      ensures filters == NoFilters && expenses == old(expenses)
      ensures filteredExpenses == expenses
    {
      filters := NoFilters;
      ApplyFilters();
      SelectedNoFilters(expenses);
    }

    method SelectCategory(c: string)
      modifies this
      ensures filters == old(filters).(category := c) && expenses == old(expenses)
      ensures Valid()
    {
      filters := filters.(category := c);
      ApplyFilters();
    }

    method SelectMonth(m: string)
      modifies this
      ensures filters == old(filters).(month := m) && expenses == old(expenses)
      ensures Valid()
    {
      filters := filters.(month := m);
      ApplyFilters();
    }

    method SelectType(t: string)
      modifies this
      ensures filters == old(filters).(kind := t) && expenses == old(expenses)
      ensures Valid()
    {
      filters := filters.(kind := t);
      ApplyFilters();
    }
  }
}
