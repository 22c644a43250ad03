/** The summary the dashboard derives from the full list of a user's rows:
    income, expense and balance totals, expense totals per category, and
    income/expense totals per month as a sorted, sparse series. */
module Dashboard {
  import opened Sequences
  import opened Strings
  import opened Records

  // ---------------------------------------------------------------------
  // Specification: totals as sums over the rows

  /** Sum of the amounts of the rows of type `t`, accumulated front to back. */
  function TypeTotal(rs: seq<ExpenseRow>, t: TxType): int {
    if rs == [] then 0
    else TypeTotal(rs[..|rs| - 1], t) + (if rs[|rs| - 1].kind == t then rs[|rs| - 1].amount else 0)
  }

  function TotalIncome(rs: seq<ExpenseRow>): int {
    TypeTotal(rs, Income)
  }

  function TotalExpenses(rs: seq<ExpenseRow>): int {
    TypeTotal(rs, Expense)
  }

  /** The badge of the balance card: "Positive" for a balance of zero or
      more, "Negative" below zero (a negative balance is shown as such). */
  function BalanceBadge(balance: int): (badge: string)
    ensures badge == "Positive" <==> balance >= 0
    ensures badge == "Positive" || badge == "Negative"
  {
    if balance >= 0 then "Positive" else "Negative"
  }

  /** The two ways rows are bucketed: by category label and by month key. */
  datatype GroupBy = ByCategory | ByMonth

  function GroupKey(r: ExpenseRow, dim: GroupBy): string {
    match dim
    case ByCategory => r.category
    case ByMonth => MonthKey(r.date)
  }

  /** Sum of the amounts of the rows of type `t` whose key under `dim` is `k`. */
  function GroupTotal(rs: seq<ExpenseRow>, t: TxType, dim: GroupBy, k: string): int {
    if rs == [] then 0
    else
      var r := rs[|rs| - 1];
      GroupTotal(rs[..|rs| - 1], t, dim, k) + (if r.kind == t && GroupKey(r, dim) == k then r.amount else 0)
  }

  /** The group totals of the keys `ks`, added up. */
  function SumGroups(rs: seq<ExpenseRow>, t: TxType, dim: GroupBy, ks: seq<string>): int {
    if ks == [] then 0 else GroupTotal(rs, t, dim, ks[0]) + SumGroups(rs, t, dim, ks[1..])
  }

  /** The amount spent in category `c`. */
  function CategoryTotal(rs: seq<ExpenseRow>, c: string): int {
    GroupTotal(rs, Expense, ByCategory, c)
  }

  /** Income and expenses booked in one month. */
  datatype MonthTotals = MonthTotals(income: int, expenses: int) {
    /** The field that rows of type `t` add to. */
    function Of(t: TxType): int {
      if t == Income then income else expenses
    }
  }

  function MonthTotalsOf(rs: seq<ExpenseRow>, m: string): MonthTotals {
    MonthTotals(GroupTotal(rs, Income, ByMonth, m), GroupTotal(rs, Expense, ByMonth, m))
  }

  // ---------------------------------------------------------------------
  // Specification: the keys of the two dictionaries, in insertion order

  /** The category of every Expense row, in row order, repeats included. */
  function ExpenseCategories(rs: seq<ExpenseRow>): seq<string> {
    if rs == [] then []
    else
      var r := rs[|rs| - 1];
      if r.kind == Expense then ExpenseCategories(rs[..|rs| - 1]) + [r.category]
      else ExpenseCategories(rs[..|rs| - 1])
  }

  /** The month key of every row, in row order, repeats included. */
  function MonthsOf(rs: seq<ExpenseRow>): seq<string> {
    if rs == [] then [] else MonthsOf(rs[..|rs| - 1]) + [MonthKey(rs[|rs| - 1].date)]
  }

  /** The keys of the category dictionary: each category that has an Expense
      row, once, in the order of its first such row. */
  function CategoryKeys(rs: seq<ExpenseRow>): seq<string> {
    Dedup(ExpenseCategories(rs))
  }

  /** The keys of the month dictionary: each month some row (of either type)
      falls in, once, in the order of its first row. */
  function MonthKeys(rs: seq<ExpenseRow>): seq<string> {
    Dedup(MonthsOf(rs))
  }

  lemma {:induction false} ExpenseCategoriesMembers(rs: seq<ExpenseRow>)
    ensures forall c :: c in ExpenseCategories(rs) <==> exists r :: r in rs && r.kind == Expense && r.category == c
  {
    if rs != [] {
      var p := rs[..|rs| - 1];
      assert rs == p + [rs[|rs| - 1]];
      ExpenseCategoriesMembers(p);
    }
  }

  lemma {:induction false} MonthsOfMembers(rs: seq<ExpenseRow>)
    ensures forall m :: m in MonthsOf(rs) <==> exists r :: r in rs && MonthKey(r.date) == m
  {
    if rs != [] {
      var p := rs[..|rs| - 1];
      assert rs == p + [rs[|rs| - 1]];
      MonthsOfMembers(p);
    }
  }

  /** A category is a key of the category dictionary exactly when some
      Expense row has it: no zero-filled keys, none missing. */
  lemma {:induction false} CategoryKeysExact(rs: seq<ExpenseRow>)
    ensures Distinct(CategoryKeys(rs))
    ensures forall c :: c in CategoryKeys(rs) <==> exists r :: r in rs && r.kind == Expense && r.category == c
  {
    DedupExact(ExpenseCategories(rs));
    ExpenseCategoriesMembers(rs);
  }

  /** A month is a key of the month dictionary exactly when some row (of
      either type) falls in it: the series is sparse. */
  lemma {:induction false} MonthKeysExact(rs: seq<ExpenseRow>)
    ensures Distinct(MonthKeys(rs))
    ensures forall m :: m in MonthKeys(rs) <==> exists r :: r in rs && MonthKey(r.date) == m
  {
    DedupExact(MonthsOf(rs));
    MonthsOfMembers(rs);
  }

  /** The category dictionary: spend per category, with a key for exactly the
      categories that have an Expense row. */
  function CategoryData(rs: seq<ExpenseRow>): map<string, int> {
    map c | c in CategoryKeys(rs) :: CategoryTotal(rs, c)
  }

  /** The month dictionary: income and expenses per month, with a key for
      exactly the months that have a row. */
  function MonthlyData(rs: seq<ExpenseRow>): map<string, MonthTotals> {
    map m | m in MonthKeys(rs) :: MonthTotalsOf(rs, m)
  }

  // ---------------------------------------------------------------------
  // Lemmas: the group totals partition the type totals

  lemma {:induction false} SumGroupsOfNoRows(t: TxType, dim: GroupBy, ks: seq<string>)
    ensures SumGroups([], t, dim, ks) == 0
  {
    if ks != [] {
      SumGroupsOfNoRows(t, dim, ks[1..]);
    }
  }

  /** One more row adds its amount to the sum of the groups exactly when its
      key is one of them. */
  lemma {:induction false} SumGroupsSnoc(rs: seq<ExpenseRow>, r: ExpenseRow, t: TxType, dim: GroupBy, ks: seq<string>)
    requires Distinct(ks)
    ensures SumGroups(rs + [r], t, dim, ks)
            == SumGroups(rs, t, dim, ks) + (if r.kind == t && GroupKey(r, dim) in ks then r.amount else 0)
  {
    if ks != [] {
      assert Distinct(ks[1..]);
      SumGroupsSnoc(rs, r, t, dim, ks[1..]);
      assert (rs + [r])[..|rs|] == rs;
      assert GroupKey(r, dim) in ks <==> GroupKey(r, dim) == ks[0] || GroupKey(r, dim) in ks[1..] by {
        assert ks == [ks[0]] + ks[1..];
      }
    }
  }

  /** Over distinct keys covering every row of type `t`, the group totals add
      up to the total of type `t`. */
  lemma {:induction false} GroupsPartitionTotal(rs: seq<ExpenseRow>, t: TxType, dim: GroupBy, ks: seq<string>)
    requires Distinct(ks)
    requires forall r :: r in rs && r.kind == t ==> GroupKey(r, dim) in ks
    ensures SumGroups(rs, t, dim, ks) == TypeTotal(rs, t)
  {
    if rs == [] {
      SumGroupsOfNoRows(t, dim, ks);
    } else {
      var p := rs[..|rs| - 1];
      var r := rs[|rs| - 1];
      assert rs == p + [r];
      GroupsPartitionTotal(p, t, dim, ks);
      SumGroupsSnoc(p, r, t, dim, ks);
    }
  }

  /** A column of values aligned with keys `ks` sums to the sum of their groups. */
  lemma {:induction false} AlignedSum(values: seq<int>, rs: seq<ExpenseRow>, t: TxType, dim: GroupBy, ks: seq<string>)
    requires |values| == |ks|
    requires forall i :: 0 <= i < |ks| ==> values[i] == GroupTotal(rs, t, dim, ks[i])
    ensures Sum(values) == SumGroups(rs, t, dim, ks)
  {
    if ks != [] {
      AlignedSum(values[1..], rs, t, dim, ks[1..]);
    }
  }

  /** The values of `m` at the keys `ks`, in that order (Object.values). */
  function ValuesAt<V>(m: map<string, V>, ks: seq<string>): (vs: seq<V>)
    requires forall k :: k in ks ==> k in m
    ensures |vs| == |ks| && forall i :: 0 <= i < |ks| ==> vs[i] == m[ks[i]]
  {
    if ks == [] then [] else [m[ks[0]]] + ValuesAt(m, ks[1..])
  }

  /** One field of the month dictionary's entries over `months`, in that
      order (the `map` over the sorted months that builds a chart series). */
  function Column(monthly: map<string, MonthTotals>, months: seq<string>, t: TxType): (col: seq<int>)
    requires forall m :: m in months ==> m in monthly
    ensures |col| == |months| && forall i :: 0 <= i < |months| ==> col[i] == monthly[months[i]].Of(t)
  {
    if months == [] then [] else [monthly[months[0]].Of(t)] + Column(monthly, months[1..], t)
  }

  /** Category totals partition the expense total: the values of the
      category dictionary, taken over its keys, add up to the total of the
      Expense rows. */
  lemma {:induction false} CategoryTotalsPartitionExpenses(rs: seq<ExpenseRow>)
    ensures Sum(ValuesAt(CategoryData(rs), CategoryKeys(rs))) == TotalExpenses(rs)
  {
    var ks := CategoryKeys(rs);
    AlignedSum(ValuesAt(CategoryData(rs), ks), rs, Expense, ByCategory, ks);
    CategoryKeysExact(rs);
    GroupsPartitionTotal(rs, Expense, ByCategory, ks);
  }

  /** Month totals partition both type totals: over any distinct list of the
      months present, the income column sums to the total income and the
      expense column to the total expenses. */
  lemma {:induction false} MonthTotalsPartitionTypes(rs: seq<ExpenseRow>, months: seq<string>)
    requires Distinct(months)
    requires forall m :: m in months <==> m in MonthKeys(rs)
    ensures SumGroups(rs, Income, ByMonth, months) == TotalIncome(rs)
    ensures SumGroups(rs, Expense, ByMonth, months) == TotalExpenses(rs)
  {
    MonthKeysExact(rs);
    GroupsPartitionTotal(rs, Income, ByMonth, months);
    GroupsPartitionTotal(rs, Expense, ByMonth, months);
  }

  /** A strictly ascending sequence has no repeats. */
  lemma {:induction false} StrictlyAscendingDistinct(s: seq<string>)
    requires StrictlyAscending(s)
    ensures Distinct(s)
  {
    forall i, j | 0 <= i < j < |s|
      ensures s[i] != s[j]
    {
      LessIrreflexive(s[i]);
    }
  }

  /** The sorted month keys: strictly ascending, exactly the months that have
      a row, and present exactly when there is a row. */
  lemma {:induction false} SortedMonthKeys(rs: seq<ExpenseRow>)
    ensures StrictlyAscending(Sort(MonthKeys(rs))) && Distinct(Sort(MonthKeys(rs)))
    ensures forall m :: m in Sort(MonthKeys(rs)) <==> m in MonthKeys(rs)
    ensures forall m :: m in Sort(MonthKeys(rs)) <==> exists r :: r in rs && MonthKey(r.date) == m
    ensures Sort(MonthKeys(rs)) != [] <==> rs != []
  {
    var keys := MonthKeys(rs);
    var months := Sort(keys);
    MonthKeysExact(rs);
    StrictlyAscendingDistinct(months);
    SortMembers(keys);
    if months != [] {
      assert months[0] in months;
    }
    if rs != [] {
      assert rs[0] in rs;
    }
  }

  /** With valid dates every month key is the `YYYY-MM` part of some row's
      date: seven characters, a dash after the year, a month from 1 to 12. */
  lemma {:induction false} MonthKeysAreDateMonths(rs: seq<ExpenseRow>)
    requires DatesValid(rs)
    ensures forall m :: m in MonthKeys(rs) ==>
              && |m| == 7 && m[4] == '-' && 1 <= 10 * DigitValue(m[5]) + DigitValue(m[6]) <= 12
              && exists r :: r in rs && |r.date| >= 7 && r.date[..7] == m
  {
    MonthKeysExact(rs);
    DatesValidEach(rs);
    forall m | m in MonthKeys(rs)
      ensures && |m| == 7 && m[4] == '-' && 1 <= 10 * DigitValue(m[5]) + DigitValue(m[6]) <= 12
              && exists r :: r in rs && |r.date| >= 7 && r.date[..7] == m
    {
      var r :| r in rs && MonthKey(r.date) == m;
      ValidDateMonthKey(r.date);
    }
  }

  /** The column of type `t` over the sorted months: one entry per month,
      each the month's total of type `t`. */
  lemma {:induction false} TrendColumn(rs: seq<ExpenseRow>, t: TxType)
    ensures forall m :: m in Sort(MonthKeys(rs)) ==> m in MonthlyData(rs)
    ensures |Column(MonthlyData(rs), Sort(MonthKeys(rs)), t)| == |Sort(MonthKeys(rs))|
    ensures forall i :: 0 <= i < |Sort(MonthKeys(rs))| ==>
              Column(MonthlyData(rs), Sort(MonthKeys(rs)), t)[i] == GroupTotal(rs, t, ByMonth, Sort(MonthKeys(rs))[i])
  {
    SortMembers(MonthKeys(rs));
  }

  /** The column of type `t` over the sorted months adds up to the total of
      type `t`. */
  lemma {:induction false} TrendColumnSum(rs: seq<ExpenseRow>, t: TxType)
    ensures forall m :: m in Sort(MonthKeys(rs)) ==> m in MonthlyData(rs)
    ensures Sum(Column(MonthlyData(rs), Sort(MonthKeys(rs)), t)) == TypeTotal(rs, t)
  {
    TrendColumn(rs, t);
    SortedMonthKeys(rs);
    MonthSeriesSum(rs, t, Sort(MonthKeys(rs)), Column(MonthlyData(rs), Sort(MonthKeys(rs)), t));
  }

  /** A series aligned with distinct months, listing every month that has a
      row, sums to the total of its type. */
  lemma {:induction false} MonthSeriesSum(rs: seq<ExpenseRow>, t: TxType, months: seq<string>, series: seq<int>)
    requires Distinct(months)
    requires forall m :: m in months <==> m in MonthKeys(rs)
    requires |series| == |months|
    requires forall i :: 0 <= i < |months| ==> series[i] == GroupTotal(rs, t, ByMonth, months[i])
    ensures Sum(series) == TypeTotal(rs, t)
  {
    MonthKeysExact(rs);
    AlignedSum(series, rs, t, ByMonth, months);
    GroupsPartitionTotal(rs, t, ByMonth, months);
  }

  // ---------------------------------------------------------------------
  // Lemmas: the dictionaries after one more row

  /** A key no row of type `t` has gets a zero total. */
  lemma {:induction false} GroupTotalAbsent(rs: seq<ExpenseRow>, t: TxType, dim: GroupBy, k: string)
    requires forall r :: r in rs ==> !(r.kind == t && GroupKey(r, dim) == k)
    ensures GroupTotal(rs, t, dim, k) == 0
  {
    if rs != [] {
      var p := rs[..|rs| - 1];
      assert forall r :: r in p ==> r in rs;
      GroupTotalAbsent(p, t, dim, k);
    }
  }

  lemma {:induction false} GroupTotalSnoc(p: seq<ExpenseRow>, e: ExpenseRow, t: TxType, dim: GroupBy, k: string)
    ensures GroupTotal(p + [e], t, dim, k)
            == GroupTotal(p, t, dim, k) + (if e.kind == t && GroupKey(e, dim) == k then e.amount else 0)
  {
    assert (p + [e])[..|p|] == p;
  }

  lemma {:induction false} ExpenseCategoriesSnoc(p: seq<ExpenseRow>, e: ExpenseRow)
    ensures ExpenseCategories(p + [e])
            == if e.kind == Expense then ExpenseCategories(p) + [e.category] else ExpenseCategories(p)
  {
    assert (p + [e])[..|p|] == p;
  }

  lemma {:induction false} DedupSnoc(s: seq<string>, x: string)
    ensures Dedup(s + [x]) == if x in Dedup(s) then Dedup(s) else Dedup(s) + [x]
  {
    assert (s + [x])[..|s|] == s;
  }

  lemma {:induction false} CategoryKeysSnoc(p: seq<ExpenseRow>, e: ExpenseRow)
    ensures CategoryKeys(p + [e])
            == if e.kind == Expense && e.category !in CategoryKeys(p) then CategoryKeys(p) + [e.category]
               else CategoryKeys(p)
  {
    ExpenseCategoriesSnoc(p, e);
    if e.kind == Expense {
      DedupSnoc(ExpenseCategories(p), e.category);
    }
  }

  /** A category that is not a key has no spend. */
  lemma {:induction false} CategoryTotalOutsideKeys(rs: seq<ExpenseRow>, c: string)
    requires c !in CategoryKeys(rs)
    ensures CategoryTotal(rs, c) == 0
  {
    CategoryKeysExact(rs);
    GroupTotalAbsent(rs, Expense, ByCategory, c);
  }

  /** A month that is not a key has no income and no expenses. */
  lemma {:induction false} MonthTotalsOutsideKeys(rs: seq<ExpenseRow>, m: string)
    requires m !in MonthKeys(rs)
    ensures MonthTotalsOf(rs, m) == MonthTotals(0, 0)
  {
    MonthKeysExact(rs);
    GroupTotalAbsent(rs, Income, ByMonth, m);
    GroupTotalAbsent(rs, Expense, ByMonth, m);
  }

  /** A row that is not an Expense leaves the category dictionary as it was. */
  lemma {:induction false} CategoryDataSkips(p: seq<ExpenseRow>, e: ExpenseRow)
    requires e.kind != Expense
    ensures CategoryData(p + [e]) == CategoryData(p)
  {
    CategoryKeysSnoc(p, e);
    forall c ensures CategoryTotal(p + [e], c) == CategoryTotal(p, c) {
      GroupTotalSnoc(p, e, Expense, ByCategory, c);
    }
  }

  /** An Expense row adds its amount to its category's entry, which starts
      from 0 when the category is new. */
  lemma {:induction false} CategoryDataAdds(p: seq<ExpenseRow>, e: ExpenseRow)
    requires e.kind == Expense
    ensures CategoryData(p + [e])
            == CategoryData(p)[e.category := (if e.category in CategoryData(p) then CategoryData(p)[e.category] else 0) + e.amount]
  {
    var before, after := CategoryData(p), CategoryData(p + [e]);
    var expected := before[e.category := (if e.category in before then before[e.category] else 0) + e.amount];
    assert after.Keys == expected.Keys by {
      CategoryKeysSnoc(p, e);
    }
    forall c | c in after
      ensures after[c] == expected[c]
    {
      GroupTotalSnoc(p, e, Expense, ByCategory, c);
      if c !in before {
        CategoryTotalOutsideKeys(p, c);
      }
    }
  }

  lemma {:induction false} MonthKeysSnoc(p: seq<ExpenseRow>, e: ExpenseRow)
    ensures MonthKeys(p + [e])
            == if MonthKey(e.date) !in MonthKeys(p) then MonthKeys(p) + [MonthKey(e.date)] else MonthKeys(p)
  {
    assert (p + [e])[..|p|] == p;
    DedupSnoc(MonthsOf(p), MonthKey(e.date));
  }

  /** The month bucket of a row: existing totals, or zero totals when the
      month is new, with the amount added to income or to expenses. */
  function AddToBucket(monthly: map<string, MonthTotals>, e: ExpenseRow): map<string, MonthTotals> {
    var m := MonthKey(e.date);
    var bucket := if m in monthly then monthly[m] else MonthTotals(0, 0);
    monthly[m := if e.kind == Income then MonthTotals(bucket.income + e.amount, bucket.expenses)
                 else MonthTotals(bucket.income, bucket.expenses + e.amount)]
  }

  /** The bucket update done in two steps: create zero totals for a new
      month, then add the amount to one field. */
  lemma {:induction false} AddToBucketInSteps(monthly: map<string, MonthTotals>, e: ExpenseRow)
    ensures var m := MonthKey(e.date);
            var created := if m !in monthly then monthly[m := MonthTotals(0, 0)] else monthly;
            var bucket := created[m];
            AddToBucket(monthly, e)
            == if e.kind == Income then created[m := bucket.(income := bucket.income + e.amount)]
               else created[m := bucket.(expenses := bucket.expenses + e.amount)]
  {
  }

  lemma {:induction false} MonthlyDataKeysSnoc(p: seq<ExpenseRow>, e: ExpenseRow)
    ensures MonthlyData(p + [e]).Keys == MonthlyData(p).Keys + {MonthKey(e.date)}
  {
    MonthKeysSnoc(p, e);
  }

  /** The entry of one month after one more row. */
  lemma {:induction false} MonthlyDataAt(p: seq<ExpenseRow>, e: ExpenseRow, k: string)
    requires k in MonthKeys(p + [e])
    ensures MonthlyData(p + [e])[k] == AddToBucket(MonthlyData(p), e)[k]
  {
    MonthTotalsSnoc(p, e, k);
    if k !in MonthKeys(p) {
      MonthTotalsOutsideKeys(p, k);
    }
  }

  lemma {:induction false} MonthlyDataSnoc(p: seq<ExpenseRow>, e: ExpenseRow)
    ensures MonthlyData(p + [e]) == AddToBucket(MonthlyData(p), e)
  {
    var after, expected := MonthlyData(p + [e]), AddToBucket(MonthlyData(p), e);
    assert after.Keys == expected.Keys by {
      MonthlyDataKeysSnoc(p, e);
    }
    forall k | k in after
      ensures after[k] == expected[k]
    {
      MonthlyDataAt(p, e, k);
    }
  }

  lemma {:induction false} MonthTotalsSnoc(p: seq<ExpenseRow>, e: ExpenseRow, k: string)
    ensures MonthTotalsOf(p + [e], k)
            == if k != MonthKey(e.date) then MonthTotalsOf(p, k)
               else if e.kind == Income then MonthTotals(MonthTotalsOf(p, k).income + e.amount, MonthTotalsOf(p, k).expenses)
               else MonthTotals(MonthTotalsOf(p, k).income, MonthTotalsOf(p, k).expenses + e.amount)
  {
    GroupTotalSnoc(p, e, Income, ByMonth, k);
    GroupTotalSnoc(p, e, Expense, ByMonth, k);
  }

  /** One step of the category reduce over an Expense row, in terms of the
      dictionary it holds. */
  lemma {:induction false} TallyCategoriesAdd(p: seq<ExpenseRow>, e: ExpenseRow, labels: seq<string>, totals: map<string, int>)
    requires labels == CategoryKeys(p) && totals == CategoryData(p) && e.kind == Expense
    ensures CategoryKeys(p + [e]) == if e.category in totals then labels else labels + [e.category]
    ensures CategoryData(p + [e]) == totals[e.category := (if e.category in totals then totals[e.category] else 0) + e.amount]
  {
    CategoryKeysSnoc(p, e);
    CategoryDataAdds(p, e);
  }

  /** One step of the category reduce over an Income row: nothing changes. */
  lemma {:induction false} TallyCategoriesSkip(p: seq<ExpenseRow>, e: ExpenseRow, labels: seq<string>, totals: map<string, int>)
    requires labels == CategoryKeys(p) && totals == CategoryData(p) && e.kind != Expense
    ensures CategoryKeys(p + [e]) == labels && CategoryData(p + [e]) == totals
  {
    CategoryKeysSnoc(p, e);
    CategoryDataSkips(p, e);
  }

  /** One step of the month reduce, in terms of the dictionary it holds. */
  lemma {:induction false} TallyMonthsStep(p: seq<ExpenseRow>, e: ExpenseRow, keys: seq<string>, monthly: map<string, MonthTotals>)
    requires keys == MonthKeys(p) && monthly == MonthlyData(p)
    ensures MonthKeys(p + [e]) == if MonthKey(e.date) in monthly then keys else keys + [MonthKey(e.date)]
    ensures MonthlyData(p + [e]) == AddToBucket(monthly, e)
  {
    MonthKeysSnoc(p, e);
    MonthlyDataSnoc(p, e);
  }

  // ---------------------------------------------------------------------
  // The two reduces that fill a dictionary in place

  /** The category reduce's callback: an Expense row adds its amount into
      `acc[category]`, creating the key at 0 first; any other row leaves the
      accumulator as it is. Over the rows `p` seen so far it turns the
      dictionary of `p` into the dictionary of `p + [e]`. */
  method CountExpense(ghost p: seq<ExpenseRow>, labels: seq<string>, totals: map<string, int>, e: ExpenseRow)
    returns (labels': seq<string>, totals': map<string, int>)
    requires labels == CategoryKeys(p) && totals == CategoryData(p)
    ensures labels' == CategoryKeys(p + [e]) && totals' == CategoryData(p + [e])
  {
    labels', totals' := labels, totals;
    if e.kind == Expense {
      TallyCategoriesAdd(p, e, labels, totals);
      var prior := if e.category in totals then totals[e.category] else 0;
      if e.category !in totals {
        labels' := labels + [e.category];
      }
      totals' := totals[e.category := prior + e.amount];
    } else {
      TallyCategoriesSkip(p, e, labels, totals);
    }
  }

  /** The month reduce's callback: the row's month bucket is created as zero
      totals on first sight, then the amount goes into its income (Income
      rows) or expenses (every other row). `keys` gains the month when it is
      new. */
  method CountInMonth(keys: seq<string>, monthly: map<string, MonthTotals>, e: ExpenseRow)
    returns (keys': seq<string>, monthly': map<string, MonthTotals>)
    ensures keys' == if MonthKey(e.date) in monthly then keys else keys + [MonthKey(e.date)]
    ensures monthly' == AddToBucket(monthly, e)
  {
    AddToBucketInSteps(monthly, e);
    keys', monthly' := keys, monthly;
    var month := MonthKey(e.date);
    if month !in monthly' {
      monthly' := monthly'[month := MonthTotals(0, 0)];
      keys' := keys' + [month];
    }
    var bucket := monthly'[month];
    if e.kind == Income {
      monthly' := monthly'[month := bucket.(income := bucket.income + e.amount)];
    } else {
      monthly' := monthly'[month := bucket.(expenses := bucket.expenses + e.amount)];
    }
  }

  /** The reduce over the Expense rows that adds each amount into
      `acc[category]` (starting from 0 for a new key). `labels` records the
      order in which keys were first created, as Object.keys reports it. */
  method TallyCategories(rs: seq<ExpenseRow>) returns (labels: seq<string>, totals: map<string, int>)
    ensures labels == CategoryKeys(rs)
    ensures totals == CategoryData(rs)
  {
    labels, totals := [], map[];
    var i := 0;
    while i < |rs|
      invariant 0 <= i <= |rs|
      invariant labels == CategoryKeys(rs[..i])
      invariant totals == CategoryData(rs[..i])
    {
      assert rs[..i + 1] == rs[..i] + [rs[i]];
      labels, totals := CountExpense(rs[..i], labels, totals, rs[i]);
      i := i + 1;
    }
    assert rs[..|rs|] == rs;
  }

  /** The reduce over all rows that creates `acc[month]` as zero totals on
      first sight and then adds the amount to its income (Income rows) or
      expenses (every other row). `keys` records creation order. The month of
      a row is obtained through a date parse and ISO print, which agrees with
      the date's first seven characters only for valid calendar dates. */
  method TallyMonths(rs: seq<ExpenseRow>) returns (keys: seq<string>, monthly: map<string, MonthTotals>)
    requires DatesValid(rs)
    ensures keys == MonthKeys(rs)
    ensures monthly == MonthlyData(rs)
  {
    keys, monthly := [], map[];
    var i := 0;
    while i < |rs|
      invariant 0 <= i <= |rs|
      invariant keys == MonthKeys(rs[..i])
      invariant monthly == MonthlyData(rs[..i])
    {
      assert rs[..i + 1] == rs[..i] + [rs[i]];
      TallyMonthsStep(rs[..i], rs[i], keys, monthly);
      keys, monthly := CountInMonth(keys, monthly, rs[i]);
      i := i + 1;
    }
    assert rs[..|rs|] == rs;
  }

  // ---------------------------------------------------------------------
  // The whole dashboard computation

  /** What the dashboard shows: the three totals, the category chart's labels
      and values, the sorted months and the two series plotted over them,
      and whether each chart is drawn or replaced by its empty message. */
  datatype DashboardView = DashboardView(
    totalIncome: int,
    totalExpenses: int,
    balance: int,
    categoryLabels: seq<string>,
    categoryValues: seq<int>,
    sortedMonths: seq<string>,
    incomeSeries: seq<int>,
    expenseSeries: seq<int>,
    showsCategoryChart: bool,
    showsTrendChart: bool)

  /** The category (doughnut) chart: its labels are the keys of the category
      dictionary and its values the dictionary's values in the same order. */
  method CategoryChart(rs: seq<ExpenseRow>) returns (labels: seq<string>, values: seq<int>)
    ensures Distinct(labels) && |values| == |labels|
    ensures forall c :: c in labels <==> exists r :: r in rs && r.kind == Expense && r.category == c
    ensures forall i :: 0 <= i < |labels| ==> values[i] == CategoryTotal(rs, labels[i])
    ensures Sum(values) == TotalExpenses(rs)
    ensures labels != [] <==> exists r :: r in rs && r.kind == Expense
  {
    var totals;
    labels, totals := TallyCategories(rs);
    values := ValuesAt(totals, labels);
    CategoryKeysExact(rs);
    CategoryTotalsPartitionExpenses(rs);
    if labels != [] {
      assert labels[0] in labels;
    }
    if exists r :: r in rs && r.kind == Expense {
      var r :| r in rs && r.kind == Expense;
      assert r.category in labels;
    }
  }

  /** The trend (bar) chart: the month keys sorted ascending, and the income
      and expense of each month read off the month dictionary. */
  method MonthlyTrend(rs: seq<ExpenseRow>) returns (months: seq<string>, incomeSeries: seq<int>, expenseSeries: seq<int>)
    requires DatesValid(rs)
    ensures StrictlyAscending(months)
    ensures forall m :: m in months <==> exists r :: r in rs && MonthKey(r.date) == m
    ensures |incomeSeries| == |months| && |expenseSeries| == |months|
    ensures forall i :: 0 <= i < |months| ==>
              incomeSeries[i] == GroupTotal(rs, Income, ByMonth, months[i]) &&
              expenseSeries[i] == GroupTotal(rs, Expense, ByMonth, months[i])
    ensures Sum(incomeSeries) == TotalIncome(rs) && Sum(expenseSeries) == TotalExpenses(rs)
    ensures months != [] <==> rs != []
    ensures forall m :: m in months ==> |m| == 7 && exists r :: r in rs && |r.date| >= 7 && r.date[..7] == m
  {
    var keys, monthly := TallyMonths(rs);
    months := Sort(keys);
    SortedMonthKeys(rs);
    MonthKeysAreDateMonths(rs);
    TrendColumn(rs, Income);
    TrendColumn(rs, Expense);
    TrendColumnSum(rs, Income);
    TrendColumnSum(rs, Expense);
    incomeSeries := Column(monthly, months, Income);
    expenseSeries := Column(monthly, months, Expense);
  }

  /** Everything the dashboard shows for a list of rows. */
  method ComputeDashboard(rs: seq<ExpenseRow>) returns (v: DashboardView)
    requires DatesValid(rs)
    // totals and balance (negative is a legitimate value)
    ensures v.totalIncome == TotalIncome(rs) && v.totalExpenses == TotalExpenses(rs)
    ensures v.balance == v.totalIncome - v.totalExpenses
    // category chart: one label per category with an Expense row, its total beside it
    ensures Distinct(v.categoryLabels) && |v.categoryValues| == |v.categoryLabels|
    ensures forall c :: c in v.categoryLabels <==> exists r :: r in rs && r.kind == Expense && r.category == c
    ensures forall i :: 0 <= i < |v.categoryLabels| ==> v.categoryValues[i] == CategoryTotal(rs, v.categoryLabels[i])
    ensures Sum(v.categoryValues) == v.totalExpenses
    // trend chart: months present, strictly ascending, with aligned series
    ensures StrictlyAscending(v.sortedMonths)
    ensures forall m :: m in v.sortedMonths <==> exists r :: r in rs && MonthKey(r.date) == m
    ensures |v.incomeSeries| == |v.sortedMonths| && |v.expenseSeries| == |v.sortedMonths|
    ensures forall i :: 0 <= i < |v.sortedMonths| ==>
              v.incomeSeries[i] == GroupTotal(rs, Income, ByMonth, v.sortedMonths[i]) &&
              v.expenseSeries[i] == GroupTotal(rs, Expense, ByMonth, v.sortedMonths[i])
    ensures Sum(v.incomeSeries) == v.totalIncome && Sum(v.expenseSeries) == v.totalExpenses
    // each chart is drawn exactly when it has data
    ensures v.showsCategoryChart <==> exists r :: r in rs && r.kind == Expense
    ensures v.showsTrendChart <==> rs != []
  {
    var totalIncome := TotalIncome(rs);
    var totalExpenses := TotalExpenses(rs);
    var labels, values := CategoryChart(rs);
    var months, incomeSeries, expenseSeries := MonthlyTrend(rs);
    v := DashboardView(totalIncome, totalExpenses, totalIncome - totalExpenses, labels, values,
                       months, incomeSeries, expenseSeries, labels != [], months != []);
  }
}
