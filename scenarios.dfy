/** Worked cases: three rows over two months, and no rows at all. */
module Scenarios {
  import opened Sequences
  import opened Strings
  import opened Records
  import opened Dashboard
  import opened DashboardPage

  // One Income row of 100 and two Grocery rows of 40 and 15, the first two
  // in January 2024 and the last in February 2024.
  const Pay := ExpenseRow("1", "u", 100, "Salary", Income, "2024-01-05", "pay", "t1")
  const Shop1 := ExpenseRow("2", "u", 40, "Grocery", Expense, "2024-01-10", "shop", "t2")
  const Shop2 := ExpenseRow("3", "u", 15, "Grocery", Expense, "2024-02-01", "shop", "t3")

  /** Grocery is the one category key and totals 55. */
  lemma ThreeRowsCategories()
    ensures CategoryData([Pay, Shop1, Shop2]) == map["Grocery" := 55]
  {
    var p1, p2, rs := [Pay], [Pay, Shop1], [Pay, Shop1, Shop2];
    assert p1 == [] + [Pay] && p2 == p1 + [Shop1] && rs == p2 + [Shop2];
    CategoryKeysSnoc([], Pay);
    CategoryKeysSnoc(p1, Shop1);
    CategoryKeysSnoc(p2, Shop2);
    GroupTotalSnoc([], Pay, Expense, ByCategory, "Grocery");
    GroupTotalSnoc(p1, Shop1, Expense, ByCategory, "Grocery");
    GroupTotalSnoc(p2, Shop2, Expense, ByCategory, "Grocery");
  }

  /** Income 100, expenses 55, balance 45. */
  lemma ThreeRowsBalance()
    ensures TotalIncome([Pay, Shop1, Shop2]) == 100 && TotalExpenses([Pay, Shop1, Shop2]) == 55
    ensures TotalIncome([Pay, Shop1, Shop2]) - TotalExpenses([Pay, Shop1, Shop2]) == 45
  {
    var p1, p2, rs := [Pay], [Pay, Shop1], [Pay, Shop1, Shop2];
    assert rs[..2] == p2 && p2[..1] == p1 && p1[..0] == [];
    assert TypeTotal([], Expense) == 0 && TypeTotal([], Income) == 0;
    assert TypeTotal(p1, Income) == 100 && TypeTotal(p1, Expense) == 0;
    assert TypeTotal(p2, Income) == 100 && TypeTotal(p2, Expense) == 40;
  }

  /** A single Expense row of 40 gives a balance of -40, shown as Negative. */
  lemma SpendingOnly()
    ensures TotalIncome([Shop1]) - TotalExpenses([Shop1]) == -40
    ensures BalanceBadge(TotalIncome([Shop1]) - TotalExpenses([Shop1])) == "Negative"
  {
    assert [Shop1][..0] == [];
    assert TypeTotal([], Expense) == 0 && TypeTotal([], Income) == 0;
    assert TypeTotal([Shop1], Income) == 0 && TypeTotal([Shop1], Expense) == 40;
  }

  /** The month keys of the three rows. */
  lemma ThreeRowsMonths()
    ensures MonthKey(Pay.date) == "2024-01" && MonthKey(Shop1.date) == "2024-01"
    ensures MonthKey(Shop2.date) == "2024-02"
  {
  }

  /** Three rows, the first two in one month and the third in another,
      have those two months as keys, in that order. */
  lemma {:induction false} TwoMonthKeys(a: ExpenseRow, b: ExpenseRow, c: ExpenseRow)
    requires MonthKey(a.date) == MonthKey(b.date) != MonthKey(c.date)
    ensures MonthKeys([a, b, c]) == [MonthKey(a.date), MonthKey(c.date)]
  {
    var first, last := MonthKey(a.date), MonthKey(c.date);
    MonthKeysSnoc([], a);
    assert [] + [a] == [a];
    var k1 := MonthKeys([a]);
    assert k1 == [first];
    MonthKeysSnoc([a], b);
    assert [a] + [b] == [a, b];
    var k2 := MonthKeys([a, b]);
    assert k2 == k1;
    MonthKeysSnoc([a, b], c);
    assert [a, b] + [c] == [a, b, c];
    assert last !in k2;
  }

  /** The months are January then February. */
  lemma ThreeRowsMonthKeys()
    ensures MonthKeys([Pay, Shop1, Shop2]) == ["2024-01", "2024-02"]
  {
    ThreeRowsMonths();
    TwoMonthKeys(Pay, Shop1, Shop2);
  }

  /** January sorts before February. */
  lemma SortJanFeb()
    ensures Sort(["2024-01", "2024-02"]) == ["2024-01", "2024-02"]
  {
    var a, b := "2024-01", "2024-02";
    assert [a, b][1..] == [b] && [b][1..] == [];
    assert Sort([b]) == [b];
    assert Less(a, b);
    assert Insert(a, [b]) == [a, b];
  }

  /** The trend chart's months are January then February. */
  lemma ThreeRowsSortedMonths()
    ensures Sort(MonthKeys([Pay, Shop1, Shop2])) == ["2024-01", "2024-02"]
  {
    ThreeRowsMonthKeys();
    SortJanFeb();
  }

  /** The month selector offers February first. */
  lemma ThreeRowsMonthOptions()
    ensures MonthOptions([Pay, Shop1, Shop2]) == ["2024-02", "2024-01"]
  {
    var sorted := Sort(Dedup(MonthsOf([Pay, Shop1, Shop2])));
    assert sorted == ["2024-01", "2024-02"] by {
      ThreeRowsSortedMonths();
    }
    var r := Reverse(sorted);
    assert |r| == 2 && r[0] == "2024-02" && r[1] == "2024-01";
  }

  /** January has 100 in and 40 out, February nothing in and 15 out. */
  lemma ThreeRowsMonthTotals()
    ensures MonthTotalsOf([Pay, Shop1, Shop2], "2024-01") == MonthTotals(100, 40)
    ensures MonthTotalsOf([Pay, Shop1, Shop2], "2024-02") == MonthTotals(0, 15)
  {
    var p1, p2, rs := [Pay], [Pay, Shop1], [Pay, Shop1, Shop2];
    assert p1 == [] + [Pay] && p2 == p1 + [Shop1] && rs == p2 + [Shop2];
    assert MonthKey(Pay.date) == "2024-01" && MonthKey(Shop1.date) == "2024-01" && MonthKey(Shop2.date) == "2024-02";
    MonthTotalsSnoc([], Pay, "2024-01");
    MonthTotalsSnoc(p1, Shop1, "2024-01");
    MonthTotalsSnoc(p2, Shop2, "2024-01");
    MonthTotalsSnoc([], Pay, "2024-02");
    MonthTotalsSnoc(p1, Shop1, "2024-02");
    MonthTotalsSnoc(p2, Shop2, "2024-02");
  }

  /** Filtering on Grocery keeps the second and third rows, in that order. */
  lemma ThreeRowsFilter()
    ensures Selected([Pay, Shop1, Shop2], Filters("Grocery", "", "")) == [Shop1, Shop2]
  {
    var f := Filters("Grocery", "", "");
    var rs := [Pay, Shop1, Shop2];
    assert rs[1..] == [Shop1, Shop2] && rs[1..][1..] == [Shop2] && [Shop2][1..] == [];
    assert !Matches(f, Pay) && Matches(f, Shop1) && Matches(f, Shop2);
    assert Selected([Shop2], f) == [Shop2];
    assert Selected([Shop1, Shop2], f) == [Shop1, Shop2];
  }

  /** With no rows: zero totals and balance, no categories, no months, and
      no selector options. */
  lemma NoRows()
    ensures TotalIncome([]) == 0 && TotalExpenses([]) == 0
    ensures CategoryData([]) == map[] && MonthlyData([]) == map[]
    ensures MonthKeys([]) == [] && CategoryOptions([]) == [] && MonthOptions([]) == []
  {
  }
}
