# Expense tracker: analytics and filtering engine

A Dafny model of the rules at the heart of a personal expense tracker. Users
record transactions of type Income or Expense, each with an amount, a category,
a `YYYY-MM-DD` date and a description.

- **The dashboard** (`Dashboard`) derives from the full list of rows:
  - total income, total expenses and the balance, with its Positive/Negative badge;
  - the spend per category, for the doughnut chart;
  - income and expenses per month, sorted by month into two index-aligned
    series, for the trend chart.

  The two per-key dictionaries are built by reduces that update an
  accumulator in place. They are modelled as loops, `TallyCategories` and
  `TallyMonths`. Each loop calls the reduce's callback (`CountExpense`,
  `CountInMonth`) and is proved equal to a specification function over the
  rows seen so far. The lemmas prove:
  - category totals partition the expense total;
  - the month columns partition both type totals;
  - each dictionary has a key for exactly the categories or months that
    occur;
  - the sorted months are strictly ascending, with both series aligned to
    them.
- **The dashboard page** (`DashboardPage`) holds the loaded rows, the three
  filter selections (category, month, type) and the filtered rows shown in
  the list. `ApplyFilters` applies the set criteria one after another.
  Together they select the rows that meet every set criterion:
  - in their original order;
  - as an exact subsequence of the rows;
  - idempotently.

  The page also:
  - derives the selector options (categories by first appearance; months
    de-duplicated and newest first);
  - updates its rows after a successful load, add (prepend) or delete (removal by
    id);
  - implements Clear All.
- **The transaction list** (`ExpenseList`):
  - the category badge style table with its "Other" fallback;
  - the singular/plural count label;
  - the sign prefix;
  - the empty state;
  - each row's delete target.
- **The add-transaction form** (`ExpenseForm`):
  - the fixed list of 15 categories;
  - the blank draft;
  - the empty-field guard;
  - the payload;
  - the reset that happens only when the submit completes.
- **The sign-up form** (`Signup`):
  - the password checks in their order (mismatch first, then a minimum length
    of 6);
  - the strength hint;
  - the error, loading and success flags around the auth call.
- `Records` holds the row shape and the date strings. `Sequences` and
  `Strings` provide the library behaviour the code relies on:
  - order-preserving filtering;
  - de-duplication in first-occurrence order, which is how a `Set` iterates;
  - reversal;
  - the default string sort order.

  `Scenarios` works through a concrete three-row example and the empty input.

Amounts are integers (minor currency units). A month key is the first seven
characters of the date.

## Model

| member | source | states |
|---|---|---|
| Records.ValidDateMonthKey | src/components/Dashboard.tsx:86 | for a valid calendar date the month key is the `YYYY-MM` part: seven characters, a dash after the year, and a month number from 1 to 12 |
| Dashboard.BalanceBadge | src/components/Dashboard.tsx:150-156 | the badge reads Positive exactly when the balance is zero or more, Negative otherwise |
| Dashboard.CategoryKeysExact | src/components/Dashboard.tsx:51-56 | the category keys are distinct, and a category is a key exactly when some Expense row has it (no zero-filled keys) |
| Dashboard.MonthKeysExact | src/components/Dashboard.tsx:85-89 | the month keys are distinct, and a month is a key exactly when some row of either type falls in it (the series is sparse) |
| Dashboard.CategoryTotalsPartitionExpenses | src/components/Dashboard.tsx:40-56 | the category totals, read off the dictionary in key order, add up to the total of the Expense rows |
| Dashboard.MonthTotalsPartitionTypes | src/components/Dashboard.tsx:36-96 | over any distinct list of the months present, the income totals add up to total income and the expense totals to total expenses |
| Dashboard.GroupsPartitionTotal | src/components/Dashboard.tsx:36-56 | over distinct keys that cover every row of a type, the per-key totals add up to that type's total |
| Dashboard.MonthSeriesSum | src/components/Dashboard.tsx:85-119 | a series aligned with distinct months that lists every month present sums to the total of its type |
| Dashboard.CategoryTotalOutsideKeys | src/components/Dashboard.tsx:51-56 | a category that is not a key has no spend |
| Dashboard.MonthTotalsOutsideKeys | src/components/Dashboard.tsx:85-96 | a month that is not a key has zero income and zero expenses |
| Dashboard.CategoryKeysSnoc | src/components/Dashboard.tsx:52-54 | one more row adds its category as the last key exactly when it is an Expense row with a new category |
| Dashboard.CategoryDataSkips | src/components/Dashboard.tsx:52 | a row that is not an Expense leaves the category dictionary unchanged |
| Dashboard.CategoryDataAdds | src/components/Dashboard.tsx:54 | an Expense row adds its amount to its category's entry, which starts from 0 when the category is new; other entries are unchanged |
| Dashboard.MonthKeysSnoc | src/components/Dashboard.tsx:87-89 | one more row adds its month as the last key exactly when the month is new |
| Dashboard.MonthTotalsSnoc | src/components/Dashboard.tsx:90-94 | one more row adds its amount to its month's income when it is an Income row and to its expenses otherwise; other months are unchanged |
| Dashboard.MonthlyDataSnoc | src/components/Dashboard.tsx:85-95 | the month dictionary after one more row is the dictionary before it with that row's bucket created at zero if new and then credited |
| Dashboard.CountExpense | src/components/Dashboard.tsx:53-56 | the category callback turns the dictionary (and key order) of the rows seen so far into that of those rows plus one |
| Dashboard.CountInMonth | src/components/Dashboard.tsx:86-95 | the month callback creates the row's month bucket at zero totals when it is new, appending the key, then credits the amount to income or expenses |
| Dashboard.TallyCategories | src/components/Dashboard.tsx:51-56 | the reduce returns the category dictionary and its keys in creation order, each key's value being the spend of that category |
| Dashboard.TallyMonths | src/components/Dashboard.tsx:85-96 | the reduce returns the month dictionary and its keys in creation order, each month holding its income and expense totals |
| Dashboard.MonthKeysAreDateMonths | src/components/Dashboard.tsx:86 | with valid dates every month key is seven characters with a dash after the year and a month from 1 to 12, and is the first seven characters of some row's date |
| Dashboard.SortedMonthKeys | src/components/Dashboard.tsx:98 | the sorted months are strictly ascending with no repeats, are exactly the months that have a row, and are empty exactly when there are no rows |
| Dashboard.TrendColumn | src/components/Dashboard.tsx:98-119 | each series has one entry per sorted month, and each entry is that month's total of the series' type |
| Dashboard.TrendColumnSum | src/components/Dashboard.tsx:98-119 | the income series sums to total income and the expense series to total expenses |
| Dashboard.CategoryChart | src/components/Dashboard.tsx:51-62 | the labels are distinct and exactly the categories of Expense rows; each value is its label's spend; the values sum to total expenses; there are labels exactly when there is an Expense row |
| Dashboard.MonthlyTrend | src/components/Dashboard.tsx:85-119 | the months are strictly ascending and exactly those present; both series are aligned with them by index, hold the month totals and sum to the type totals; months exist exactly when rows do; each month is the first seven characters of some row's date |
| Dashboard.ComputeDashboard | src/components/Dashboard.tsx:36-119 | totals, balance = income − expenses (possibly negative), both charts' data as above, and each chart drawn exactly when it has data |
| DashboardPage.StageCategory | src/pages/DashboardPage.tsx:53-55 | the category stage, or skipping it when unset, leaves the rows meeting the category criterion |
| DashboardPage.StageMonth | src/pages/DashboardPage.tsx:57-61 | the month stage, applied after the category stage, leaves the rows meeting both criteria |
| DashboardPage.StageType | src/pages/DashboardPage.tsx:63-65 | the type stage, applied after the first two, leaves exactly the rows that match every set criterion |
| DashboardPage.SelectedNoFilters | src/pages/DashboardPage.tsx:51-67 | with all three criteria empty the filtered rows are the rows, element for element |
| DashboardPage.SelectedMembers | src/pages/DashboardPage.tsx:53-65 | a row is kept exactly when it is one of the rows and meets every non-empty criterion |
| DashboardPage.SelectedIsExactSubsequence | src/pages/DashboardPage.tsx:53-65 | the kept rows sit at strictly increasing positions of the input, and a position is among them exactly when its row matches |
| DashboardPage.SelectedIdempotent | src/pages/DashboardPage.tsx:50-68 | filtering the filtered rows again with the same criteria changes nothing |
| DashboardPage.SelectedAfterAdd | src/pages/DashboardPage.tsx:89 | a row put in front is shown first when it matches; otherwise the shown rows are unchanged |
| DashboardPage.WithoutIdExact | src/pages/DashboardPage.tsx:105 | after a delete no row has that id, every other row remains, and the rest keep their relative order |
| DashboardPage.CategoryOptionsExact | src/pages/DashboardPage.tsx:112 | the category options hold each category of a row exactly once and nothing else |
| DashboardPage.MonthOptionsExact | src/pages/DashboardPage.tsx:113 | the month options are strictly descending and hold exactly the month prefixes of the rows |
| DashboardPage.Page.constructor | src/pages/DashboardPage.tsx:13-20 | the page starts with no rows, nothing filtered and every criterion empty |
| DashboardPage.Page.ApplyFilters | src/pages/DashboardPage.tsx:50-68 | the staged filtering stores exactly the rows selected by the current criteria and changes neither the rows nor the criteria |
| DashboardPage.Page.Loaded | src/pages/DashboardPage.tsx:42 | the fetched rows replace the list, the criteria are kept, and the shown rows are re-derived |
| DashboardPage.Page.ExpenseAdded | src/pages/DashboardPage.tsx:89 | the new row goes first, the old rows follow unchanged, and the shown rows are re-derived |
| DashboardPage.Page.ExpenseDeleted | src/pages/DashboardPage.tsx:105 | the rows become those without the deleted id, and the shown rows are re-derived |
| DashboardPage.Page.ShowsClearAll | src/pages/DashboardPage.tsx:147 | the Clear All button is shown exactly when some criterion is set |
| DashboardPage.Page.ClearAll | src/pages/DashboardPage.tsx:147-149 | every criterion becomes empty and the shown rows become all the rows |
| DashboardPage.Page.SelectCategory | src/pages/DashboardPage.tsx:164 | only the category criterion changes; the shown rows are re-derived |
| DashboardPage.Page.SelectMonth | src/pages/DashboardPage.tsx:182 | only the month criterion changes; the shown rows are re-derived |
| DashboardPage.Page.SelectType | src/pages/DashboardPage.tsx:200 | only the type criterion changes; the shown rows are re-derived |
| ExpenseList.CategoryColorLookup | src/components/ExpenseList.tsx:22-40 | a listed category gets its own entry, any other string the "Other" entry, and the result is never empty |
| ExpenseList.CategoryColorsMatchForm | src/components/ExpenseList.tsx:23-39 | the style table has an entry for exactly the form's 15 categories |
| ExpenseList.CategoryColorsDistinct | src/components/ExpenseList.tsx:23-39 | no two categories share a style |
| ExpenseList.TransactionNoun | src/components/ExpenseList.tsx:65 | the noun is "transaction" exactly when the count is 1, "transactions" otherwise |
| ExpenseList.SignPrefix | src/components/ExpenseList.tsx:110 | the prefix is "+" exactly for Income and "-" for any other type |
| ExpenseList.Render | src/components/ExpenseList.tsx:43-153 | the empty state is shown exactly when there are no rows; otherwise the count, its noun and one row per transaction in order, each with its sign, amount, style and its own id as delete target |
| ExpenseForm.CategoriesShape | src/components/ExpenseForm.tsx:14-30 | fifteen distinct labels, the last being "Other" |
| ExpenseForm.BlankDraft | src/components/ExpenseForm.tsx:33-39 | the blank draft has type Expense, today's date and empty amount, category and description |
| ExpenseForm.PayloadOf | src/components/ExpenseForm.tsx:48-54 | the payload copies category, type, date and description unchanged and carries the parsed amount |
| ExpenseForm.Form.constructor | src/components/ExpenseForm.tsx:33-40 | the form starts with the blank draft and not loading |
| ExpenseForm.Form.Submit | src/components/ExpenseForm.tsx:42-54 | with an empty amount, category or description nothing is sent and loading is unchanged; otherwise loading starts and the payload of the draft is sent; the draft itself is untouched |
| ExpenseForm.Form.SubmitSettled | src/components/ExpenseForm.tsx:55-65 | the draft resets to the blank one only when the submit completed, and loading ends either way |
| Signup.Validate | src/pages/Signup.tsx:28-36 | there is no problem exactly when the passwords match and are at least 6 long; a mismatch gives the mismatch message; a matching short password gives the length message |
| Signup.MismatchFirst | src/pages/Signup.tsx:28-36 | a mismatched password that is also short reports the mismatch |
| Signup.StrengthAgreesWithValidation | src/pages/Signup.tsx:33-52 | a password typed twice passes the checks exactly when the strength hint calls it strong |
| Signup.Form.constructor | src/pages/Signup.tsx:7-17 | all fields empty, no error, not loading, no success |
| Signup.Form.Submit | src/pages/Signup.tsx:24-41 | the sign-up request is sent exactly when the passwords match and are at least 6 long; then the error is cleared and loading starts; otherwise the error is the first failing check's message and loading is unchanged; the fields are untouched |
| Signup.Form.SignUpSettled | src/pages/Signup.tsx:40-49 | an error reply shows its message, a reply without error sets success, a thrown call changes neither, and loading ends in every case |
| Scenarios.ThreeRowsCategories | src/components/Dashboard.tsx:51-56 | for one Income row and two Grocery expenses of 40 and 15 the category dictionary is exactly Grocery ↦ 55 |
| Scenarios.ThreeRowsBalance | src/components/Dashboard.tsx:36-44 | the same rows give income 100, expenses 55 and balance 45 |
| Scenarios.SpendingOnly | src/components/Dashboard.tsx:44-156 | a single expense of 40 gives balance −40 and the Negative badge |
| Scenarios.ThreeRowsMonthKeys | src/components/Dashboard.tsx:85-96 | the month keys are January then February 2024 |
| Scenarios.ThreeRowsSortedMonths | src/components/Dashboard.tsx:98 | sorted, the months are January then February 2024 |
| Scenarios.ThreeRowsMonthOptions | src/pages/DashboardPage.tsx:113 | the month selector offers February 2024 before January 2024 |
| Scenarios.ThreeRowsMonthTotals | src/components/Dashboard.tsx:85-96 | January holds 100 income and 40 expenses, February 0 and 15 |
| Scenarios.ThreeRowsFilter | src/pages/DashboardPage.tsx:53-55 | filtering on Grocery keeps the second and third rows, in that order |
| Scenarios.NoRows | src/components/Dashboard.tsx:36-267 | no rows give zero totals, empty dictionaries, no months and no selector options |

## Left out

- Backend calls (loading, inserting and deleting rows, signing up) and the
  effects that trigger them are network I/O.
  - Only the state updates that follow success are modelled: `Loaded`,
    `ExpenseAdded` and `ExpenseDeleted`.
  - A failed call leaves the page's rows as they were; the error log and
    alert that report it are not modelled.
  - Re-running the filter after every change to the rows or criteria is
    modelled by each `Page` method calling `ApplyFilters`.
  - The page's loading spinner is not modelled.
- The auth service's reply is a parameter of `Signup.Form.SignUpSettled`.
- The outcome of the submit handler the form is given is a parameter of
  `ExpenseForm.Form.SubmitSettled`.
  - The form keeps its draft when that handler throws.
  - The dashboard page's add handler catches every error and never
    rethrows, so with that page the handler always completes.
  - The draft is therefore reset even after a failed insert; the keep-draft
    case does not arise in this app.
- The following are presentation:
  - chart rendering, colours and tooltips;
  - the month labels of the charts and selectors;
  - the list's date formatting;
  - the show-password toggles, the input change handlers and all markup.
- Currency formatting is not part of this model: its source is not available.
- The hard-coded percentage changes shown on the cards are constants with no
  logic.
- The login, layout and not-found screens hold no rule worth stating.
- Floating-point amounts are modelled as integer minor units, so
  JavaScript number rounding is not modelled.
- ExpenseForm.Form.Submit: the parsed amount is a parameter. A NaN from
  unparsable text is not modelled.
- Dashboard.TallyMonths, Dashboard.MonthlyTrend and Dashboard.ComputeDashboard require every date to be a valid `YYYY-MM-DD` calendar date.
  - The dashboard gets a row's month by parsing the date and printing it as
    an ISO timestamp. That agrees with the date's first seven characters for
    such dates.
  - Other strings make the parse throw or roll over into another month,
    which is not modelled.
  - The filter and the month options take the prefix directly and need no
    such requirement.
- The current date, used for the form's default and reset date, is a
  parameter.
  - The source takes the current UTC date, not the local one.
  - East of UTC, for example in India before 05:30 local time, that is
    the previous day.
- Object keys that collide with inherited properties (such as
  `constructor`) are not modelled: in the accumulator objects and the style
  table, such keys would start from a non-empty value.
- Integer-like keys are not modelled: JavaScript would list them before the
  others in `Object.keys`.
- Strings are sequences of characters.
  - Password length and the string sort order count UTF-16 code units in the
    source.
  - The two agree for characters in the Basic Multilingual Plane.
