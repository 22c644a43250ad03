/** The transaction row as the backend stores it (`expenses` table row) and
    the date strings it carries. */
module Records {

  /** The `type` column: the TypeScript literal union 'Income' | 'Expense'. */
  datatype TxType = Income | Expense

  /** The string the `type` column holds, which is what the type filter
      compares with. */
  function TypeName(t: TxType): string {
    match t
    case Income => "Income"
    case Expense => "Expense"
  }

  /** One row of the `expenses` table. `amount` is a count of minor currency
      units; `date` is the `YYYY-MM-DD` string the row is attributed to. */
  datatype ExpenseRow = ExpenseRow(
    id: string,
    userId: string,
    amount: int,
    category: string,
    kind: TxType,
    date: string,
    description: string,
    createdAt: string)

  /** `s.substring(0, n)`: the first `n` characters, or all of a shorter `s`. */
  function Prefix(s: string, n: nat): (r: string)
    ensures |r| == if |s| < n then |s| else n
  {
    if |s| <= n then s else s[..n]
  }

  /** The month a date is bucketed and filtered under: its first seven
      characters, `YYYY-MM` for a well-formed date. */
  function MonthKey(date: string): string {
    Prefix(date, 7)
  }

  predicate IsDigit(c: char) {
    '0' <= c <= '9'
  }

  function DigitValue(c: char): int {
    c as int - '0' as int
  }

  predicate IsLeapYear(year: int) {
    year % 4 == 0 && (year % 100 != 0 || year % 400 == 0)
  }

  function DaysInMonth(year: int, month: int): int
    requires 1 <= month <= 12
  {
    if month == 2 then (if IsLeapYear(year) then 29 else 28)
    else if month == 4 || month == 6 || month == 9 || month == 11 then 30
    else 31
  }

  /** `date` has the shape `YYYY-MM-DD` with digits in the eight digit places. */
  predicate DateShaped(date: string) {
    && |date| == 10
    && date[4] == '-' && date[7] == '-'
    && IsDigit(date[0]) && IsDigit(date[1]) && IsDigit(date[2]) && IsDigit(date[3])
    && IsDigit(date[5]) && IsDigit(date[6]) && IsDigit(date[8]) && IsDigit(date[9])
  }

  function YearOf(date: string): int
    requires DateShaped(date)
  {
    1000 * DigitValue(date[0]) + 100 * DigitValue(date[1]) + 10 * DigitValue(date[2]) + DigitValue(date[3])
  }

  function MonthOf(date: string): int
    requires DateShaped(date)
  {
    10 * DigitValue(date[5]) + DigitValue(date[6])
  }

  function DayOf(date: string): int
    requires DateShaped(date)
  {
    10 * DigitValue(date[8]) + DigitValue(date[9])
  }

  /** `date` is `YYYY-MM-DD` naming a real calendar day: the strings for which
      parsing as a date and printing back as an ISO timestamp gives the same
      year and month. */
  predicate ValidDate(date: string) {
    && DateShaped(date)
    && 1 <= MonthOf(date) <= 12
    && 1 <= DayOf(date) <= DaysInMonth(YearOf(date), MonthOf(date))
  }

  /** The month key of a valid date is its `YYYY-MM` part: seven characters,
      a dash after the year, and a month number from 1 to 12. */
  lemma {:induction false} ValidDateMonthKey(date: string)
    requires ValidDate(date)
    ensures MonthKey(date) == date[..7]
    ensures |MonthKey(date)| == 7 && MonthKey(date)[4] == '-'
    ensures 1 <= 10 * DigitValue(MonthKey(date)[5]) + DigitValue(MonthKey(date)[6]) <= 12
  {
  }

  /** Every row carries a valid calendar date (stated row by row, front to
      back; `DatesValidEach` gives the quantified form). */
  predicate DatesValid(rs: seq<ExpenseRow>) {
    rs == [] || (ValidDate(rs[0].date) && DatesValid(rs[1..]))
  }

  lemma {:induction false} DatesValidEach(rs: seq<ExpenseRow>)
    ensures DatesValid(rs) <==> forall r :: r in rs ==> ValidDate(r.date)
  {
    if rs != [] {
      DatesValidEach(rs[1..]);
      assert rs == [rs[0]] + rs[1..];
    }
  }
}
