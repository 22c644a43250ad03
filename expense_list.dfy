/** The transaction list: the category badge style lookup, the row view with
    its sign prefix and delete target, the count label, and the empty state. */
module ExpenseList {
  import opened Records
  import ExpenseForm

  /** The badge classes of each known category. */
  const CategoryColors: map<string, string> := map[
    "Food & Dining" := "bg-orange-50 text-orange-700 border-orange-200",
    "Transportation" := "bg-accent-50 text-accent-700 border-accent-200",
    "Shopping" := "bg-purple-50 text-purple-700 border-purple-200",
    "Entertainment" := "bg-pink-50 text-pink-700 border-pink-200",
    "Bills & Utilities" := "bg-gray-50 text-gray-700 border-gray-200",
    "Healthcare" := "bg-danger-50 text-danger-700 border-danger-200",
    "Travel" := "bg-indigo-50 text-indigo-700 border-indigo-200",
    "Education" := "bg-emerald-50 text-emerald-700 border-emerald-200",
    "Salary" := "bg-success-50 text-success-700 border-success-200",
    "Freelance" := "bg-cyan-50 text-cyan-700 border-cyan-200",
    "Investment" := "bg-warning-50 text-warning-700 border-warning-200",
    "Rent & EMI" := "bg-slate-50 text-slate-700 border-slate-200",
    "Petrol & Fuel" := "bg-amber-50 text-amber-700 border-amber-200",
    "Grocery" := "bg-lime-50 text-lime-700 border-lime-200",
    "Other" := "bg-neutral-50 text-neutral-700 border-neutral-200"
  ]

  /** The badge classes of a category: its own entry when it has a non-empty
      one, otherwise the entry of "Other" (a missing or empty entry is falsy). */
  function CategoryColor(category: string): string {
    if category in CategoryColors && CategoryColors[category] != "" then CategoryColors[category]
    else CategoryColors["Other"]
  }

  /** Every known category gets its own entry and every other string the
      "Other" entry, which is never empty: the lookup always yields a style. */
  lemma CategoryColorLookup(category: string)
    ensures category in CategoryColors ==> CategoryColor(category) == CategoryColors[category]
    ensures category !in CategoryColors ==> CategoryColor(category) == CategoryColors["Other"]
    ensures CategoryColor(category) != ""
  {
  }

  /** The style table covers exactly the form's category choices. */
  lemma CategoryColorsMatchForm()
    ensures CategoryColors.Keys == set c | c in ExpenseForm.Categories
  {
  }

  /** No two categories share a style. */
  lemma CategoryColorsDistinct()
    ensures forall a, b :: a in CategoryColors && b in CategoryColors && a != b ==> CategoryColors[a] != CategoryColors[b]
  {
  }

  /** The noun of the count label: singular for exactly one row. */
  function TransactionNoun(n: nat): (noun: string)
    ensures noun == "transaction" <==> n == 1
    ensures noun == "transaction" || noun == "transactions"
  {
    "transaction" + (if n != 1 then "s" else "")
  }

  /** The sign put before the amount: '+' for Income, '-' for any other type. */
  function SignPrefix(t: TxType): (sign: string)
    ensures sign == "+" <==> t == Income
    ensures sign == "+" || sign == "-"
  {
    if t == Income then "+" else "-"
  }

  /** What one row of the list shows; `deletes` is the id its delete button
      hands to the page. */
  datatype RowView = RowView(deletes: string, description: string, sign: string, amount: int,
                             category: string, badge: string, date: string)

  /** The list: the empty state, or a count and one row per transaction. */
  datatype ListView = EmptyState | Listing(count: nat, noun: string, rows: seq<RowView>)

  function RowOf(r: ExpenseRow): RowView {
    RowView(r.id, r.description, SignPrefix(r.kind), r.amount, r.category, CategoryColor(r.category), r.date)
  }

  /** The list for `rs`: the empty state exactly when there are no rows;
      otherwise one row per transaction, in order, each deleting its own id. */
  function Render(rs: seq<ExpenseRow>): (v: ListView)
    ensures v.EmptyState? <==> rs == []
    ensures v.Listing? ==> v.count == |rs| && v.noun == TransactionNoun(|rs|) && |v.rows| == |rs|
    ensures v.Listing? ==> forall i :: 0 <= i < |rs| ==>
              v.rows[i].deletes == rs[i].id && v.rows[i].sign == SignPrefix(rs[i].kind)
              && v.rows[i].amount == rs[i].amount && v.rows[i].badge == CategoryColor(rs[i].category)
  {
    if |rs| == 0 then EmptyState
    else Listing(|rs|, TransactionNoun(|rs|), seq(|rs|, i requires 0 <= i < |rs| => RowOf(rs[i])))
  }
}
