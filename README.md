# Personal finance visualizer: a verified model of its computations

The app records transactions (a signed amount, a date, a category and a
description) and monthly budgets (a cap for one category and one month). All of
its logic lives in React components and two zod validators. This project lifts
each computation out of its fetch or render wrapper. It models the computation
over explicit snapshots of the fetched lists, and proves what the components
promise about it:

- the dashboard summary: the total, the largest transaction, the budgets exceeded
  this month, and the carousel over them;
- the four per-category folds: budget progress, budget comparison, category
  breakdown and pie chart;
- the six-month trend;
- the recent-transactions list;
- deleting by id, and classifying an amount as expense or income;
- the month picker;
- the two form sheets and the two API validators.

Amounts are integers (cents). Real numbers appear only where a component
divides. Dates are calendar instants in UTC.

Files, by module:

| file | module | what it holds |
|---|---|---|
| js.dfy | Js | the JavaScript primitives the components call |
| seqs.dfy | Seqs | `filter`, `map`, `reverse` and their laws |
| calendar.dfy | Calendar | the dates and months, `toISOString` and `format(…, "yyyy-MM")` |
| records.dfy | Records | Transaction, Budget, and the shared sum of magnitudes |
| tally.dfy | Tally | the object a grouping `reduce` builds, with `Object.values` and `Object.entries` |
| grouping.dfy | Grouping | the grouping reduce over transactions |
| sorting.dfy | Sorting | `Array.prototype.sort` with a `b - a` comparator, done in place |
| zod.dfy | Zod | the zod field checks |
| budget_schema.dfy | BudgetSchema | the budget validator |
| transaction_schema.dfy | TransactionSchema | the transaction validator |
| dashboard.dfy | DashboardSummary | the summary cards |
| budgets_list.dfy | BudgetsList | the budget list |
| budget_comparison.dfy | BudgetComparison | the comparison chart |
| category_breakdown.dfy | CategoryBreakdown | the breakdown table |
| category_pie.dfy | CategoryPie | the pie chart |
| monthly_expenses.dfy | MonthlyExpenses | the six-month trend |
| recent_transactions.dfy | RecentTransactions | the recent-transactions card |
| transactions_list.dfy | TransactionsList | the transaction list |
| deletion.dfy | Deletion | the delete-by-id filter the two lists share |
| month_picker.dfy | MonthPicker | the month picker |
| budget_form.dfy | BudgetForm | the budget form sheet |
| transaction_form.dfy | TransactionForm | the transaction form sheet |

Where the source updates state in place, the model does too:

- A grouping `reduce` that writes `acc[key] += …` is a method with a loop
  (`CategorySpending`, `CategoryTotals`, and `Grouping.GroupByCategoryName`, which
  the pie chart and the budget comparison share because their reduces are the
  same code). Its
  loop invariant ties the accumulator to `Grouping.GroupBy` on the prefix read so
  far.
- The two sorts run in place on an array (`Sorting.SortDescending`). That method
  is proved equal to a stable insertion-sort specification.
- Component state that click handlers replace is a class, with `modifies` on its
  handlers. This covers the carousel index, the picker's `isOpen` flag and the
  lists after a delete.

Everything else is a function.

Three behaviours are not decided by the code, so the model takes them as
parameters:

- `Date.parse`, a predicate `dateParses`;
- `new Date(string)`, a partial function `parseDate`;
- `new Date()`, the instant `now`.

Where the code and the written design disagree, the model follows the code:

- Category matching is case-sensitive everywhere: `"food"` and `"Food"` are two
  groups.
- The budget-comparison chart is not scoped to a month, so budgets of one
  category in different months show the same actual spending.
- The budgets list clamps the percentage at 100.
- The dashboard's "Total Expenses" card sums the magnitudes of all
  transactions, of every month and sign, although its caption says "For the
  current month".
- The pie chart keeps income as well as expenses, despite the "expenses only"
  comment. It drops only amounts of 0.
- Two categories differing only in case become two slices with the same
  capitalised name (`CategoryPie.CaseVariantsShareName`).
- The breakdown's percentages are NaN when every amount is 0
  (`CategoryBreakdown.AllZeroGivesNaN`). Rows with equal totals keep insertion
  order.
- The budget form's category has no minimum length. An empty category passes
  the form, and the API validator then rejects it.
- The transaction form accepts amount 0, which the API validator rejects
  (`TransactionForm.ZeroAmountPassesFormOnly`).
- No transaction the API accepts has a negative amount, so none counts as an
  expense anywhere (`TransactionSchema.AcceptedIsIncome` and the lemmas built on
  it). The transaction model stores no category, so a record fetched back has
  none (`TransactionSchema.StoredIsIncome`).
- The "Most Expensive Transaction" card capitalises the largest
  transaction's category. A fetched record has none, so for any non-empty list
  the card calls `charAt` on `undefined` and the render fails
  (`DashboardSummary.LargestHasNoCategory`).
- Both lists delete by filtering the list their handler captured when it was
  rendered. Two deletes whose answers overlap bring the first deleted record
  back (`Deletion.OverlappingDeletes`).
- Changing the year of February 29 into a common year gives March 1
  (`MonthPicker.LeapDayOverflow`), as date-fns' `setYear` does through `Date`.

## Model

| member | source | states |
|---|---|---|
| Js.Abs | src/components/dashboard/dashboard-summary.tsx:48 | `Math.abs` is the number or its negation, never negative |
| Js.Div | src/components/dashboard/category-breakdown.tsx:42 | JavaScript division: finite exactly when the divisor is not 0, NaN exactly for 0/0, +Infinity for a positive dividend over 0 and -Infinity for a negative one, and a finite quotient times the divisor gives the dividend |
| Js.Scale | src/components/dashboard/category-breakdown.tsx:42 | multiplying by a positive constant keeps a number finite or infinite and scales a finite one |
| Js.Round | src/components/budgets/budgets-list.tsx:109 | `Math.round` gives a whole number within one half of a finite argument, and leaves infinities and NaN alone |
| Js.Min | src/components/budgets/budgets-list.tsx:109 | `Math.min(n, c)`: NaN stays NaN, +Infinity becomes c, a finite value is the smaller of the two |
| Js.LowerChar | src/components/transactions/transaction-form-sheet.tsx:161 | `toLowerCase` on ASCII letters: A-Z become a-z, every other character is kept |
| Js.UpperChar | src/components/dashboard/dashboard-summary.tsx:24 | `toUpperCase` on ASCII letters: a-z become A-Z, every other character is kept |
| Js.ToLower | src/components/transactions/transaction-form-sheet.tsx:161 | lower-casing keeps the length and lower-cases each character |
| Js.Capitalize | src/components/dashboard/dashboard-summary.tsx:23-25 | `capitalizeFirstLetter` keeps the length, upper-cases the first character and keeps the rest; "" stays "" |
| Js.CapitalizeIdempotent | src/components/dashboard/dashboard-summary.tsx:23-25 | capitalising twice is capitalising once |
| Js.ToLowerIdempotent | src/components/budgets/budget-form-sheet.tsx:138 | lower-casing twice is lower-casing once |
| Js.CapitalizeLower | src/components/charts/category-pie-chart.jsx:36 | a capitalised word, lower-cased and then capitalised, is given back |
| Js.SliceEnd | src/components/dashboard/dashboard-summary.tsx:56 | the end index `slice` uses: clamped to the length, counted from the end when negative |
| Js.Prefix | src/components/transactions/recent-transactions.tsx:35 | `slice(0, end)` is a prefix of the clamped length |
| Seqs.Filter | src/components/charts/budget-comparison-chart.tsx:44 | `filter` keeps only elements that pass, keeps every element that passes, and is no longer than its input |
| Seqs.Map | src/components/charts/budget-comparison-chart.tsx:57 | `map` keeps the length and applies the function at each index |
| Seqs.Reverse | src/components/charts/monthly-expenses-chart.tsx:39 | `reverse` keeps the length and puts element `n-1-i` at index `i` |
| Seqs.FilterMap | src/components/dashboard/dashboard-summary.tsx:67-72 | filtering the mapped list is mapping the list filtered by the composed test |
| Seqs.FilterFilter | src/components/dashboard/dashboard-summary.tsx:65-72 | two filters in a row are one filter by the conjunction |
| Seqs.FilterIdempotent | src/components/transactions/transactions-list.tsx:76 | filtering twice by one test is filtering once |
| Seqs.FilterDropsOne | src/components/transactions/transactions-list.tsx:76 | a filter that rejects exactly the element at `k` removes that element and nothing else |
| Calendar.DaysInMonth | src/components/ui/month-picker.tsx:34 | a month has 28 to 31 days, and February has 29 exactly in a leap year |
| Calendar.MonthFromNumber | src/components/charts/monthly-expenses-chart.tsx:33 | every month number names a month with that number, as `Date` carries an overflowing month into the year |
| Calendar.MonthNumberInjective | src/components/charts/monthly-expenses-chart.tsx:33 | two months have the same number exactly when they are the same month |
| Calendar.AddMonths | src/components/charts/monthly-expenses-chart.tsx:33 | moving by `k` months moves the month number by `k` |
| Calendar.NextMonth | src/components/charts/monthly-expenses-chart.tsx:33 | one month on is the next month of the year, or January of the next year after December |
| Calendar.PreviousMonth | src/components/charts/monthly-expenses-chart.tsx:33 | one month back is the previous month of the year, or December of the previous year before January |
| Calendar.StartOfMonth | src/components/charts/monthly-expenses-chart.tsx:35 | `startOfMonth` is midnight of day 1 of the month |
| Calendar.EndOfMonth | src/components/charts/monthly-expenses-chart.tsx:36 | `endOfMonth` is the last millisecond of the month's last day |
| Calendar.RankOrder | src/components/transactions/recent-transactions.tsx:34 | comparing `getTime()` is chronological order on the fields, and equal times are equal dates |
| Calendar.InMonthIff | src/components/charts/monthly-expenses-chart.tsx:46 | a date lies between a month's inclusive bounds exactly when it is in that month |
| Calendar.Decimal | src/components/budgets/budget-form-sheet.tsx:73 | zero padding yields only digits, at least the requested width |
| Calendar.DecimalRoundTrip | src/components/budgets/budget-form-sheet.tsx:73 | a padded number reads back as the number |
| Calendar.DecimalWidth | src/components/budgets/budget-form-sheet.tsx:73 | a number below 10^w is written in exactly `w` digits |
| Calendar.MonthKeyRoundTrip | src/components/budgets/budget-form-sheet.tsx:73 | the `yyyy-MM` key reads back as its month |
| Calendar.MonthKeyInjective | src/components/budgets/budget-form-sheet.tsx:73 | two months share a `yyyy-MM` key exactly when they are equal |
| Calendar.MonthKeyLength | src/components/budgets/budget-form-sheet.tsx:73 | for years 1..9999 the key has 7 characters, so `slice(0, 7)` keeps it whole |
| Calendar.IsoMonthPrefix | src/components/dashboard/dashboard-summary.tsx:56 | the first 7 characters of `toISOString()` are the date's `yyyy-MM` key, for years 1..9999 |
| Calendar.ShortMonthName | src/components/charts/monthly-expenses-chart.tsx:37 | "MMM" is the first three letters of the month's name |
| Records.SumAbsSplit | src/components/budgets/budgets-list.tsx:104-105 | a filter splits the sum of magnitudes into the part it keeps and the part it drops |
| Records.SumAbsFilterBound | src/components/budgets/budgets-list.tsx:104-105 | the magnitudes of a filtered list add up to no more than those of the whole list |
| Records.SumAbsUnion | src/components/charts/monthly-expenses-chart.tsx:44-48 | two filters that never keep the same transaction add up to the filter by their union |
| Records.SumAbsZero | src/components/dashboard/dashboard-summary.tsx:48 | the sum of magnitudes is 0 exactly when every amount is 0 |
| Records.GroupName | src/components/charts/category-pie-chart.jsx:26 | `t.category \|\| "Uncategorized"` is never empty: it is the category when present and non-empty, "Uncategorized" otherwise |
| Tally.GroupKeys | src/components/dashboard/category-breakdown.tsx:32-35 | the built object lists each key once, and its keys are exactly those of the added pairs |
| Tally.GroupGet | src/components/dashboard/category-breakdown.tsx:33 | the value under a key is the sum of the amounts added under it, and 0 when there are none |
| Tally.GroupOrder | src/components/dashboard/category-breakdown.tsx:39 | `Object.entries` lists the keys in the order of their first addition |
| Tally.GroupSum | src/components/dashboard/category-breakdown.tsx:37 | `Object.values` adds up to the sum of all amounts added |
| Tally.GroupPositive | src/components/charts/category-pie-chart.jsx:30 | when every added amount is positive, every value is positive |
| Grouping.GroupByStep | src/components/dashboard/category-breakdown.tsx:33 | one step of the reduce adds the next transaction's magnitude under its key when it passes the test, and changes nothing otherwise |
| Grouping.GroupByGet | src/components/dashboard/category-breakdown.tsx:33 | the value under `k` is the sum of the magnitudes of the transactions that pass the test and have key `k` |
| Grouping.GroupByKeys | src/components/dashboard/category-breakdown.tsx:32-35 | the keys are exactly the keys of the transactions that pass the test, each listed once |
| Grouping.GroupBySum | src/components/dashboard/category-breakdown.tsx:37 | the values add up to the magnitudes of all transactions that pass the test |
| Grouping.GroupByPositive | src/components/charts/category-pie-chart.jsx:30 | when no transaction that passes has amount 0, every value is positive |
| Grouping.PairsOfFiltered | src/components/charts/budget-comparison-chart.tsx:44-47 | filtering and then grouping everything is grouping with the filter as the test |
| Grouping.GroupByEveryOrder | src/components/dashboard/category-breakdown.tsx:39 | a grouping of every transaction lists its keys in order of first occurrence |
| Sorting.InsertPermutes | src/components/dashboard/category-breakdown.tsx:43 | inserting adds exactly the inserted element |
| Sorting.InsertSorted | src/components/dashboard/category-breakdown.tsx:43 | inserting into a non-increasing list keeps it non-increasing |
| Sorting.InsertStable | src/components/dashboard/category-breakdown.tsx:43 | an inserted element goes after every earlier element with the same key |
| Sorting.SortPermutes | src/components/dashboard/category-breakdown.tsx:43 | the sort is a permutation |
| Sorting.SortSorted | src/components/dashboard/category-breakdown.tsx:43 | the sort orders by key, largest first |
| Sorting.SortStable | src/components/dashboard/category-breakdown.tsx:43 | elements with equal keys keep their order |
| Sorting.SortLength | src/components/dashboard/category-breakdown.tsx:43 | the sort keeps the length |
| Sorting.SortDistinct | src/components/dashboard/category-breakdown.tsx:43 | the sort keeps a list whose elements differ in some field free of repeats |
| Sorting.SortSumBy | src/components/dashboard/category-breakdown.tsx:43 | the sort leaves any sum over the list unchanged |
| Sorting.InsertAt | src/components/dashboard/category-breakdown.tsx:43 | one in-place pass leaves the first `i+1` elements as the stable insertion of `a[i]` into the sorted first `i`, and the rest of the array alone |
| Sorting.SortDescending | src/components/dashboard/category-breakdown.tsx:43 | the in-place sort leaves the array equal to the stable descending sort of its old contents |
| Zod.StringIssues | src/components/budgets/budget-form-sheet.tsx:26-28 | `z.string().min(n)` reports nothing exactly for a string of at least `n` characters, else one issue on its field |
| Zod.RefinedStringIssues | src/schemas/budgetSchema.ts:10-12 | a refined string reports nothing exactly for a string the refinement accepts |
| Zod.PositiveIssues | src/schemas/budgetSchema.ts:7-9 | `z.number().positive()` reports nothing exactly for a number above 0 |
| Zod.NonNegativeIssues | src/components/transactions/transaction-form-sheet.tsx:22-24 | `nonnegative()` reports nothing exactly for a number of at least 0 |
| Zod.DateIssues | src/components/budgets/budget-form-sheet.tsx:32-34 | `z.date()` reports nothing exactly for a valid date |
| BudgetSchema.AcceptsIff | src/schemas/budgetSchema.ts:3-13 | a budget body is accepted exactly when the category is a non-empty string, the amount a positive number and the month a string `Date.parse` reads |
| BudgetSchema.IssuesPerField | src/schemas/budgetSchema.ts:4-12 | at most three issues, each on one of the three fields, and a field has an issue exactly when its own check fails |
| TransactionSchema.AcceptsIff | src/schemas/transactionSchema.ts:4-11 | a transaction body is accepted exactly when the amount is positive, the date parses, and the category and description are non-empty strings |
| TransactionSchema.AcceptedIsIncome | src/schemas/transactionSchema.ts:5 | a transaction whose body is accepted has a positive amount and a non-empty category in that body, so it is never an expense |
| TransactionSchema.AcceptedAllIncome | src/schemas/transactionSchema.ts:5 | a list of transactions whose bodies are accepted has only positive amounts |
| TransactionSchema.Stored | src/models/transaction.js:6-10 | the stored record keeps the id, amount, date and description of the accepted transaction and has no category |
| TransactionSchema.StoredIsIncome | src/models/transaction.js:6-10 | a record fetched back after acceptance has a positive amount, so it is never an expense, and it has no category, so its own body would now be refused |
| DashboardSummary.TotalCountsEach | src/components/dashboard/dashboard-summary.tsx:48 | the total counts every transaction's magnitude in full, whatever its month or sign |
| DashboardSummary.TotalZero | src/components/dashboard/dashboard-summary.tsx:48 | the total is 0 exactly when every amount is 0, in particular for no transactions |
| DashboardSummary.LargestTransaction | src/components/dashboard/dashboard-summary.tsx:51-53 | there is a largest transaction exactly when the list is non-empty |
| DashboardSummary.ReduceLargerSpec | src/components/dashboard/dashboard-summary.tsx:51-53 | the reduce's result is at least as large as the seed and every element, and is the seed or the first element that beats it |
| DashboardSummary.LargestIsFirstMaximum | src/components/dashboard/dashboard-summary.tsx:51-53 | the largest transaction is an element of maximal magnitude, and every earlier element is strictly smaller |
| DashboardSummary.LargestHasNoCategory | src/components/dashboard/dashboard-summary.tsx:201 | when no transaction carries a category, the largest one has none, so the card passes `undefined` to `capitalizeFirstLetter` |
| DashboardSummary.DatedInCurrentMonth | src/components/dashboard/dashboard-summary.tsx:56-59 | for years 1..9999 the ISO-prefix test picks exactly the transactions of the current calendar month |
| DashboardSummary.CategorySpending | src/components/dashboard/dashboard-summary.tsx:57-63 | the loop builds the grouping of the current month's transactions under their exact category |
| DashboardSummary.SpendingOfCategory | src/components/dashboard/dashboard-summary.tsx:57-63 | the spending under `c` is the sum of the magnitudes of this month's transactions whose category is exactly `c` |
| DashboardSummary.ExceededAreOverBudgets | src/components/dashboard/dashboard-summary.tsx:65-72 | the list is the entries of the budgets of the current month that are over their cap, in budget order, duplicates included |
| DashboardSummary.ExceededEntries | src/components/dashboard/dashboard-summary.tsx:65-72 | every entry is strictly over its cap, reports its category's spending and comes from a current-month budget; there are no more entries than such budgets |
| DashboardSummary.ExceededComplete | src/components/dashboard/dashboard-summary.tsx:65-72 | every current-month budget whose spending is strictly above its cap is listed |
| DashboardSummary.UnspentNeverListed | src/components/dashboard/dashboard-summary.tsx:69-72 | a category that spent nothing is listed only for a negative cap: spending equal to the cap is not over it |
| DashboardSummary.SummaryData | src/components/dashboard/dashboard-summary.tsx:48-72 | the summary holds the total, the largest transaction and the over-budget entries of the current month |
| DashboardSummary.NextIndex | src/components/dashboard/dashboard-summary.tsx:89-93 | the next index stays in range |
| DashboardSummary.PrevIndex | src/components/dashboard/dashboard-summary.tsx:95-99 | the previous index stays in range |
| DashboardSummary.NextPrevInverse | src/components/dashboard/dashboard-summary.tsx:89-99 | stepping back undoes stepping forward, and the other way round |
| DashboardSummary.SingleEntryFixed | src/components/dashboard/dashboard-summary.tsx:159 | with one entry, next and previous both stay on it |
| DashboardSummary.CategoryCarousel.constructor | src/components/dashboard/dashboard-summary.tsx:34 | the carousel starts on index 0 over the loaded entries |
| DashboardSummary.CategoryCarousel.Title | src/components/dashboard/dashboard-summary.tsx:165 | the heading is the shown entry's category with its first character upper-cased and the rest unchanged |
| DashboardSummary.CategoryCarousel.Next | src/components/dashboard/dashboard-summary.tsx:89-93 | `nextCategory` moves the index to the next one, circularly, and keeps it in range |
| DashboardSummary.CategoryCarousel.Prev | src/components/dashboard/dashboard-summary.tsx:95-99 | `prevCategory` moves the index to the previous one, circularly, and keeps it in range |
| BudgetsList.PercentageBounds | src/components/budgets/budgets-list.tsx:109 | the percentage is NaN only for nothing spent against a cap of 0; otherwise it is a whole number of at most 100, at least 0 for a positive cap, and 100 for spending against a cap of 0 |
| BudgetsList.PercentageMonotone | src/components/budgets/budgets-list.tsx:109 | for a positive cap the percentage never decreases as spending grows |
| BudgetsList.ProgressCountsExpenses | src/components/budgets/budgets-list.tsx:103-105 | progress is the sum of the magnitudes of the expenses whose category is exactly the budget's, and at most the sum of all magnitudes |
| BudgetsList.OtherTransactionsIgnored | src/components/budgets/budgets-list.tsx:104 | income and transactions of another category leave progress unchanged, wherever they stand |
| BudgetsList.MonthIgnored | src/components/budgets/budgets-list.tsx:104 | budgets of one category and cap in different months show the same progress |
| BudgetsList.NothingSpentIsZero | src/components/budgets/budgets-list.tsx:109 | with nothing spent against a non-zero cap the percentage is 0 |
| BudgetsList.NoneSpent | src/components/budgets/budgets-list.tsx:104 | without expenses no transaction counts towards any budget |
| BudgetsList.AcceptedTransactionsNoProgress | src/components/budgets/budgets-list.tsx:104 | for transactions the API accepts, progress is 0, and so is the percentage for a non-zero cap |
| BudgetsList.BudgetsListState.constructor | src/components/budgets/budgets-list.tsx:77 | the state holds the fetched budgets and transactions |
| BudgetsList.BudgetsListState.HandleDelete | src/components/budgets/budgets-list.tsx:77-100 | after an ok response the budgets are the list the handler captured, minus the records with that id, in order; otherwise nothing changes; the transactions are untouched |
| Grouping.GroupByCategoryName | src/components/charts/budget-comparison-chart.tsx:47-54 | the loop builds the grouping of its input under `t.category \|\| "Uncategorized"`; the pie chart runs the same reduce (category-pie-chart.jsx lines 25-32) |
| BudgetComparison.FetchData | src/components/charts/budget-comparison-chart.tsx:44-64 | the chart data is the comparison of the expenses with the budgets |
| BudgetComparison.RowOfBudget | src/components/charts/budget-comparison-chart.tsx:57-64 | one row per budget in budget order, named by the capitalised category, with the cap unchanged and the sum of that category's expense magnitudes as actual |
| BudgetComparison.SameCategorySameActual | src/components/charts/budget-comparison-chart.tsx:57-58 | budgets of one category, of whatever month, show the same actual spending |
| BudgetComparison.NoExpensesNoActual | src/components/charts/budget-comparison-chart.tsx:58 | a budget whose category has no expenses, or is empty, shows 0 |
| BudgetComparison.IncomeIgnored | src/components/charts/budget-comparison-chart.tsx:44 | adding income changes no row |
| BudgetComparison.AcceptedTransactionsShowNothing | src/components/charts/budget-comparison-chart.tsx:44 | for transactions the API accepts, every actual is 0 |
| BudgetComparison.EmptyChartIff | src/components/charts/budget-comparison-chart.tsx:90-96 | the chart is empty exactly when there are no budgets |
| CategoryBreakdown.CategoryTotals | src/components/dashboard/category-breakdown.tsx:32-35 | the loop builds the grouping of all transactions under their category as stored |
| CategoryBreakdown.FetchTransactions | src/components/dashboard/category-breakdown.tsx:32-43 | the rows built and sorted in place are the breakdown |
| CategoryBreakdown.GrandTotal | src/components/dashboard/category-breakdown.tsx:37 | the grand total is the sum of all magnitudes, income included |
| CategoryBreakdown.UnsortedRow | src/components/dashboard/category-breakdown.tsx:39-42 | the `j`-th unsorted row is the `j`-th category with its total and its share of the grand total |
| CategoryBreakdown.RowTotals | src/components/dashboard/category-breakdown.tsx:32-35 | every row belongs to a transaction's category, and its total is the sum of magnitudes of exactly that category |
| CategoryBreakdown.BreakdownSorted | src/components/dashboard/category-breakdown.tsx:43 | the rows are a permutation of the unsorted rows, one per distinct category, largest total first |
| CategoryBreakdown.EveryCategoryHasRow | src/components/dashboard/category-breakdown.tsx:39 | every transaction's category has a row |
| CategoryBreakdown.TiesKeepFirstAppearance | src/components/dashboard/category-breakdown.tsx:43 | rows with equal totals keep the order in which their categories first occur |
| CategoryBreakdown.PercentSumScaled | src/components/dashboard/category-breakdown.tsx:42 | the shares times the grand total add up to 100 times the sum of the totals |
| CategoryBreakdown.RowShare | src/components/dashboard/category-breakdown.tsx:42 | a row's percentage is its total over the grand total, times 100, and its total lies between 0 and the grand total |
| CategoryBreakdown.ShareBounds | src/components/dashboard/category-breakdown.tsx:42 | a part of a positive whole is a finite share between 0 and 100 |
| CategoryBreakdown.PercentagesAddUp | src/components/dashboard/category-breakdown.tsx:42 | for a positive grand total each percentage lies in [0, 100] and together they add up to 100 |
| CategoryBreakdown.EmptyBreakdownIff | src/components/dashboard/category-breakdown.tsx:84-90 | the table is empty exactly when there are no transactions |
| CategoryBreakdown.AllZeroGivesNaN | src/components/dashboard/category-breakdown.tsx:42 | when every amount is 0 the rows exist, with total 0 and percentage NaN |
| CategoryPie.FetchData | src/components/charts/category-pie-chart.jsx:22-38 | the chart data is the slices of the grouping of the non-zero transactions |
| CategoryPie.SlicesOfGroups | src/components/charts/category-pie-chart.jsx:35-38 | one slice per group, named by the capitalised key, worth the magnitudes of the non-zero transactions of that group, and positive |
| CategoryPie.GroupsOfNonZero | src/components/charts/category-pie-chart.jsx:22 | the groups are exactly the grouped categories of the non-zero transactions, income included |
| CategoryPie.UncategorizedSlice | src/components/charts/category-pie-chart.jsx:26 | a non-zero transaction without a category yields an "Uncategorized" slice |
| CategoryPie.EmptyChartIff | src/components/charts/category-pie-chart.jsx:64-70 | the chart is empty exactly when every amount is 0 |
| CategoryPie.SlicesCoverAll | src/components/charts/category-pie-chart.jsx:25-38 | the slices add up to the magnitudes of all transactions |
| CategoryPie.TwoCategoriesTwoSlices | src/components/charts/category-pie-chart.jsx:25-38 | two transactions of different categories give two slices, in order |
| CategoryPie.CaseVariantsShareName | src/components/charts/category-pie-chart.jsx:36 | "food" and "Food" become two slices both named "Food" |
| MonthlyExpenses.BucketOf | src/components/charts/monthly-expenses-chart.tsx:34-37 | a bucket starts and ends in its month |
| MonthlyExpenses.BucketsAreTrailingMonths | src/components/charts/monthly-expenses-chart.tsx:32-39 | there are six buckets, oldest first, the last one the current month |
| MonthlyExpenses.BucketsConsecutive | src/components/charts/monthly-expenses-chart.tsx:32-39 | neighbouring buckets are consecutive months, stepping back across January to December of the previous year |
| MonthlyExpenses.InBucketIff | src/components/charts/monthly-expenses-chart.tsx:44-47 | a transaction is in a bucket exactly when its date is in the bucket's month |
| MonthlyExpenses.BucketsDisjoint | src/components/charts/monthly-expenses-chart.tsx:44-47 | a transaction falls into at most one bucket |
| MonthlyExpenses.ChartRows | src/components/charts/monthly-expenses-chart.tsx:42-54 | row `i` is named by its month and holds the magnitudes of that month's transactions, income included |
| MonthlyExpenses.EmptyMonthIsZero | src/components/charts/monthly-expenses-chart.tsx:42-54 | a month without transactions keeps its row, with 0 |
| MonthlyExpenses.TotalOfDisjointBuckets | src/components/charts/monthly-expenses-chart.tsx:44-48 | over disjoint buckets the rows add up to the magnitudes of the transactions in any of them |
| MonthlyExpenses.BucketsPairwiseDisjoint | src/components/charts/monthly-expenses-chart.tsx:44-47 | no transaction is in two of the six buckets |
| MonthlyExpenses.InWindowInBucket | src/components/charts/monthly-expenses-chart.tsx:32-47 | a transaction dated in the last six months lies in some bucket |
| MonthlyExpenses.ChartTotalBound | src/components/charts/monthly-expenses-chart.tsx:42-54 | the rows add up to at most the sum of all magnitudes, and to exactly that when every date lies in the window |
| RecentTransactions.RecentTransactions | src/components/transactions/recent-transactions.tsx:33-35 | the fetched array ends up sorted newest first, and the result is its first `limit` elements |
| RecentTransactions.RecentLength | src/components/transactions/recent-transactions.tsx:23-35 | the list has `min(limit, n)` transactions, at most 5 by default |
| RecentTransactions.NewestFirst | src/components/transactions/recent-transactions.tsx:34 | no listed transaction is older than one listed after it |
| RecentTransactions.ListedAndLeftOut | src/components/transactions/recent-transactions.tsx:33-35 | the sorted array is a permutation; the listed and the left-out transactions together are the fetched ones, and none left out is newer than one listed |
| RecentTransactions.ListedDistinct | src/components/transactions/recent-transactions.tsx:33-35 | transactions with distinct ids stay distinct in the list |
| RecentTransactions.SkeletonMatchesLimit | src/components/transactions/recent-transactions.tsx:66 | the loading skeleton shows `limit` rows, at least as many as are listed |
| TransactionsList.KindOf | src/components/transactions/transactions-list.tsx:155-156 | an amount is an expense exactly when it is negative |
| TransactionsList.DisplayRecoversAmount | src/components/transactions/transactions-list.tsx:155-158 | the shown magnitude and kind give back the signed amount; 0 shows as income |
| TransactionsList.AcceptedShownAsIncome | src/components/transactions/transactions-list.tsx:155-158 | a transaction the API accepts shows as income, with its own amount |
| TransactionsList.TransactionsListState.constructor | src/components/transactions/transactions-list.tsx:66 | the state holds the fetched transactions |
| TransactionsList.TransactionsListState.HandleDelete | src/components/transactions/transactions-list.tsx:66-89 | after an ok response the transactions are the list the handler captured, minus the records with that id, in order; otherwise nothing changes |
| Deletion.WithoutRemovesId | src/components/transactions/transactions-list.tsx:76 | no record with the id is left, every other record is kept, and deleting commutes with splitting the list, so kept records keep their order |
| Deletion.WithoutOne | src/components/budgets/budgets-list.tsx:87 | with unique ids, deleting one record's id removes exactly that record |
| Deletion.WithoutAbsentAndTwice | src/components/budgets/budgets-list.tsx:87 | deleting an absent id changes nothing, and deleting twice is deleting once |
| Deletion.OverlappingDeletes | src/components/budgets/budgets-list.tsx:87 | when two handlers that captured the same list answer in turn, the record the first removed is back after the second; had the second filtered the first's result, the record would stay gone |
| MonthPicker.SelectMonth | src/components/ui/month-picker.tsx:27-28 | choosing month `k` gives day 1 of month `k+1` of the same year, at midnight |
| MonthPicker.SetYear | src/components/ui/month-picker.tsx:34 | `setYear` keeps the month, day and time, except that February 29 in a common year becomes March 1 |
| MonthPicker.ChangeYear | src/components/ui/month-picker.tsx:33-35 | a year change by Δ gives a date in year `currentYear + Δ` |
| MonthPicker.ChangeYearKeepsMonth | src/components/ui/month-picker.tsx:33-35 | away from February 29 a year change keeps the month, day and time |
| MonthPicker.ChangeYearBack | src/components/ui/month-picker.tsx:55-64 | changing the year by Δ and back is the identity unless February 29 overflows |
| MonthPicker.LeapDayOverflow | src/components/ui/month-picker.tsx:64 | from February 29 into a common year the picker lands in March, irreversibly |
| MonthPicker.SelectedMonthSurvivesYearChange | src/components/ui/month-picker.tsx:27-35 | after choosing a month, changing the year keeps the start of that month |
| MonthPicker.OneButtonHighlighted | src/components/ui/month-picker.tsx:70-76 | exactly one month button is highlighted: the date's month |
| MonthPicker.SelectedButtonHighlighted | src/components/ui/month-picker.tsx:70-78 | after choosing month `k` its button is the highlighted one |
| MonthPicker.ButtonLabelsShort | src/components/ui/month-picker.tsx:80 | the twelve labels are the three-letter month names in calendar order |
| MonthPicker.TriggerShowsSelection | src/components/ui/month-picker.tsx:46 | the trigger names the chosen month and year, and the highlighted button's label is its first three letters |
| MonthPicker.MonthPickerState.constructor | src/components/ui/month-picker.tsx:23 | the popover starts closed |
| MonthPicker.MonthPickerState.SetOpen | src/components/ui/month-picker.tsx:39 | `onOpenChange` sets the flag and keeps the date |
| MonthPicker.MonthPickerState.HandleMonthSelect | src/components/ui/month-picker.tsx:27-31 | choosing a month selects its first day and closes the popover |
| MonthPicker.MonthPickerState.HandleYearChange | src/components/ui/month-picker.tsx:33-36 | changing the year updates the date and leaves the popover as it was |
| BudgetForm.LabelsAreWords | src/components/budgets/budget-form-sheet.tsx:41-50 | each category label is a capitalised word |
| BudgetForm.OptionsAreLowerCaseLabels | src/components/budgets/budget-form-sheet.tsx:137-141 | the eight option values are the lower-cased labels, already lower case, capitalising back to the labels, and all different |
| BudgetForm.Parse | src/components/budgets/budget-form-sheet.tsx:25-35 | the form gives data exactly when no field has an issue; the amount is then positive and the values are the data |
| BudgetForm.NewBudgetDefaults | src/components/budgets/budget-form-sheet.tsx:54-58 | a new budget starts on day 1 of the current month with amount 0, which the form refuses |
| BudgetForm.SubmitTarget | src/components/budgets/budget-form-sheet.tsx:63-64 | editing sends PUT to `/api/budgets/<id>` and creating sends POST to `/api/budgets` |
| BudgetForm.MonthKeyFormat | src/components/budgets/budget-form-sheet.tsx:73 | the sent month is 4 digits, "-", 2 digits, keeps its 7-character prefix and reads back as the chosen month |
| BudgetForm.SavedMatchesCurrentMonth | src/components/budgets/budget-form-sheet.tsx:73 | a saved budget counts for the dashboard's current month exactly when its month is the month of `now` |
| BudgetForm.SubmittedBodyAccepted | src/components/budgets/budget-form-sheet.tsx:71-74 | the API accepts a valid form's body exactly when its category is non-empty and its month key parses |
| BudgetForm.EditRoundTrip | src/components/budgets/budget-form-sheet.tsx:54-58 | when `new Date` reads the stored month key as the start of its month, editing a saved budget starts from its values and resubmitting sends the body it was created with |
| TransactionForm.LabelsAreWords | src/components/transactions/transaction-form-sheet.tsx:40-49 | each category label is a capitalised word |
| TransactionForm.OptionsAreLowerCaseLabels | src/components/transactions/transaction-form-sheet.tsx:160-161 | the eight option values are the lower-cased labels, already lower case, capitalising back to the labels, and all different |
| TransactionForm.OptionListsDiffer | src/components/transactions/transaction-form-sheet.tsx:40-49 | "healthcare" can be chosen for a transaction but not for a budget |
| TransactionForm.Parse | src/components/transactions/transaction-form-sheet.tsx:21-34 | the form gives data exactly when no field has an issue; the amount is then at least 0, the description at least 2 characters, and the values are the data |
| TransactionForm.DescriptionTooShort | src/components/transactions/transaction-form-sheet.tsx:31-33 | a description shorter than 2 characters is refused |
| TransactionForm.EditDefaultsCopy | src/components/transactions/transaction-form-sheet.tsx:53-58 | editing starts from the transaction's amount, date and description, and its category or "" |
| TransactionForm.NewTransactionDefaults | src/components/transactions/transaction-form-sheet.tsx:53-58 | a new transaction starts at amount 0, and the untouched form is refused |
| TransactionForm.SubmitTarget | src/components/transactions/transaction-form-sheet.tsx:63-64 | editing sends PUT to `/api/transactions/<id>` and creating sends POST to `/api/transactions` |
| TransactionForm.SubmitSendsRecord | src/components/transactions/transaction-form-sheet.tsx:71-76 | the body carries exactly the amount, category, ISO date and description of the transaction the form values describe |
| TransactionForm.ZeroAmountPassesFormOnly | src/components/transactions/transaction-form-sheet.tsx:22-24 | an amount of 0 passes the form, and the API refuses its body |
| TransactionForm.SubmittedBodyAccepted | src/components/transactions/transaction-form-sheet.tsx:71-76 | the API accepts a valid form's body exactly when the amount is positive, the category non-empty and the ISO date parses |
| TransactionForm.EditRoundTrip | src/components/transactions/transaction-form-sheet.tsx:53-58 | editing a transaction with valid values gives those values back, and resubmitting sends the same body |

## Left out

- Fetching, `useEffect`, `Promise.all`, `response.json()`, toasts and loading
  flags. The model takes the fetched lists, and for a delete the captured list and the response's `ok`
  flag, as parameters.
- The API route handlers, the mongoose models, the pages, the header, footer
  and shell, the skeleton components and the Next.js configuration. The tests
  script under `src/tests` has no assertions.
- JSX rendering beyond the values the components compute: the shown slices,
  rows, labels, the highlighted buttons and the empty-state conditions.
- `toFixed(2)` and `Number.parseFloat`: amounts are whole cents and display
  rounding is the identity. IEEE-754 arithmetic is replaced by exact integers,
  and by reals where a component divides.
- Local time zones: every date is in UTC, so `getMonth`, `startOfMonth` and
  `format` agree with `toISOString`.
- MonthlyExpenses.Buckets: `subMonths(now, i)` clamps the day to the target
  month (March 31 gives February 28). The model goes straight to the target
  month, because each bucket uses only its month.
- `Object.entries` lists integer-like keys first, in numeric order. The model
  assumes category keys are not integer-like, so entries come in insertion
  order.
- Tally.Get, Tally.Add: the model treats the `{}` a grouping `reduce` starts
  from as an empty dictionary, so it assumes no category is the name of an
  `Object.prototype` property. In JavaScript such a key (`toString`,
  `constructor`, `valueOf`, `hasOwnProperty`) first reads the inherited
  function, so `(acc[k] || 0) + x` builds a string instead of a number. The
  budget comparison then calls `toFixed` on a non-number and throws, so the
  chart never loads. An assignment to `__proto__` is ignored, so that key is
  never stored and never listed. The budget API accepts any non-empty category,
  so such a budget can be saved.
- Tally.GroupKeys: assumes the same. A `__proto__` key is never stored, so
  JavaScript lists one key fewer than the model does.
- Tally.GroupGet: assumes the same. Under an inherited name JavaScript starts
  from the inherited value, not from 0.
- Calendar.IsoMonthPrefix: proved for years 1 to 9999 only. Those are the
  years whose ISO year has four digits and no sign. Calendar.MonthKeyRoundTrip
  and Calendar.MonthKeyInjective are proved for every year from 1.
- Js.UpperChar, Js.LowerChar: only the ASCII letters change case. JavaScript
  also maps other letters ("é" to "É") and can change the length ("ß" to
  "SS"). Js.Capitalize and Js.ToLower inherit this gap, which matters for
  categories typed with such letters.
- The transaction forms edit records that carry a category. Records fetched
  from the API have none, because the transaction model declares none.
  `TransactionSchema.Stored` states this, but the fetch itself is not
  modelled.
- `Date.parse` and `new Date(string)` are parameters (`dateParses`,
  `parseDate`), not implementations of the date-string grammar.
