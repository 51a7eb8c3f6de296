# BitBudget, modelled in Dafny

BitBudget is a personal finance application: a React client that records
income and expense items by category, filters and totals them by month,
charts them, raises alerts and insights, and exports them as CSV, JSON or
printable HTML; and an Express server that stores categories,
transactions, users and AI recommendations per owner.

This project models the core of both sides.

- **Client finance pipeline.** The category registry. The application
  shell's filters, totals, add and delete. The month navigator. The chart's
  per-category totals. The item form. The filter panel. The records the
  summary, insights and alerts read. The financial summary metrics. The
  smart insights and smart alerts. The notification queue. The quick tips
  card. The sign-up form. The AI recommendation context and list.
- **Server controllers.** Categories, transactions, authentication and AI
  recommendations are modelled as an in-memory store scoped by owner.
  Record ids come from a counter. Hashes and tokens are parameters, and
  whether a mail goes out is a boolean parameter. The recommendation rules are modelled in full; only the
  tip drawn for a recommendation is an index given by the caller.
- **Export pipeline.** The three formatters. The export service with its
  strategy table, file names and titles. The CSV and HTML strategies. The
  older export panel with its own CSV and HTML builders, empty-data guard
  and dispatch. The newer panel's count, button and no-data rules. The
  shared text helpers.

The form follows the source. Components and controllers that keep state
are classes whose methods change their fields. Pure computations are
functions with lemmas. Accumulating loops are methods whose loop
invariants tie them to a specifying function. Anything locale-dependent is
a function parameter: `toFixed`, `toLocaleString`, `formatDate`,
`formatCurrency` and the rendering of a number. So are the clock, random
choices, hashing and the network.

Shared modules with no row in the table below:

- `Wrappers`: `Option` and `Result`.
- `Text`: search, split, join, replace, count, lower case and
  concatenation of strings, with their lemmas.
- `Sums`: sums, filters and finds over sequences.
- `Sorting`: an insertion sort by a total preorder, and the code-point order on strings, which stands for the store's `ORDER BY name`.
- `Time`: millisecond timestamps, days, hours and weekdays, and conversion to and from Gregorian civil dates.

## Model

| member | source | states |
|---|---|---|
| Categories.KeysEnumerateRegistry | src/data/categories.ts:3-16 | The registry has exactly twelve keys, listed without repetition. |
| Categories.RegistrySize | src/data/categories.ts:3-16 | The registry holds twelve categories. |
| Categories.RegistryPartition | src/data/categories.ts:3-16 | Every category is either income or expense, never both, and its `expense` flag says which. |
| Categories.ExpenseFlag | src/data/categories.ts:3-16 | A key is in the expense set exactly when it is registered with `expense: true`; the expense keys in declaration order are exactly that set. |
| Categories.ExpenseKeyOrderDistinct | src/data/categories.ts:3-16 | The expense keys in declaration order repeat no key. |
| Categories.TitlesDistinct | src/data/categories.ts:3-16 | No two categories share a title, so a title names one key. |
| App.ApplyFilters | src/App.tsx:43-87 | The result is a subsequence of the items; an item is in it exactly when it passes every active filter, and then as often as in the list. |
| App.NoFiltersKeepAll | src/App.tsx:43-87 | With no filter active the list passes unchanged. |
| App.RefinedFilterShrinks | src/App.tsx:43-87 | Switching on further filters gives the looser result filtered again, so never a longer list. |
| App.ValueBoundsInclusive | src/App.tsx:56-62 | An item whose value equals both bounds passes them: the bounds are inclusive. |
| App.DateBoundsByDay | src/App.tsx:65-83 | With both date bounds set, an item passes exactly when its day lies between the two bound days, inclusive. |
| App.StartBoundByDay | src/App.tsx:65-73 | A time is at or after the start bound's midnight exactly when its day is on or after the bound's day. |
| App.EndBoundByDay | src/App.tsx:75-83 | A time is at or before the end bound's 23:59:59.999 exactly when its day is on or before the bound's day. |
| App.LowerIdempotent | src/App.tsx:46 | Lower-casing twice is lower-casing once. |
| App.SearchIgnoresCase | src/App.tsx:46 | A query and its lower-cased form select the same items. |
| App.Totals | src/App.tsx:96-110 | The loop's income is the sum of the income items' values and its expense the sum of the expense items' values. |
| App.TotalsCoverAll | src/App.tsx:96-110 | Income plus expense is the sum of all displayed values. |
| App.TotalsAreFilteredSums | src/App.tsx:100-106 | The expense total is the sum over the items of expense categories and the income total the sum over the rest. |
| App.RemoveFirst | src/App.tsx:143-147 | Removing a present item takes one copy of it out and keeps the rest; removing an absent item changes nothing. |
| App.RemoveFirstAt | src/App.tsx:143-147 | The removal keeps the items before the first match and after it, in order. |
| App.FindIndex | src/App.tsx:136-141 | The index is -1 exactly when the item is absent, and otherwise the position of its first occurrence. |
| App.ItemToast | src/App.tsx:127-131 | The toast is a thrown error exactly when the item's category is not registered. |
| App.ItemList.constructor | src/App.tsx:21 | The list starts as the initial items. |
| App.ItemList.Add | src/App.tsx:121-132 | The item is appended at the end, and the toast names it as an expense or an income. |
| App.ItemList.Delete | src/App.tsx:134-159 | The first equal item is removed; an absent item leaves the list unchanged and shows the error. |
| App.HasActiveFilters | src/App.tsx:165-171 | The filter notice is raised exactly when some filter differs from its empty value. |
| ChartArea.ExpensesByCategory | src/components/ChartArea/index.tsx:30-48 | The map has exactly the expense keys, each mapped to the total of the items of that category. |
| ChartArea.SeedExpenseKeys | src/components/ChartArea/index.tsx:33-38 | The seeding loop gives every expense key, and only those, a total of 0. |
| ChartArea.SeedKey | src/components/ChartArea/index.tsx:35-37 | One seeding step adds the key with 0 when it is an expense category, and otherwise leaves the map alone. |
| ChartArea.SeedCoversExpenseKeys | src/components/ChartArea/index.tsx:34-38 | The registry keys flagged as expense are exactly the expense keys. |
| ChartArea.AddExpenses | src/components/ChartArea/index.tsx:41-45 | Each expense key's total grows by the values of that category's items; the keys stay the expense keys. |
| ChartArea.TotalsOrderIndependent | src/components/ChartArea/index.tsx:41-45 | A category total depends only on which items are listed, not on their order. |
| ChartArea.IncomeItemIgnored | src/components/ChartArea/index.tsx:42-44 | An income item changes no expense category's total. |
| ChartArea.SumOfCategoryTotals | src/components/ChartArea/index.tsx:41-45 | Summing the totals of distinct categories is summing each item's value over those categories. |
| ChartArea.ZeroSum | src/components/ChartArea/index.tsx:36 | Summing zero over any list gives zero. |
| ChartArea.ChartMatchesExpenseTotal | src/components/ChartArea/index.tsx:30-48 | The per-category totals add up to the expense total the shell computes for the bar chart. |
| InfoArea.Shift | src/components/InfoArea/index.tsx:14-16 | The result's month is in 1..12, and the year and month index have moved by exactly `delta`, with a two-digit year read as 19xx. |
| InfoArea.PrevRollsOver | src/components/InfoArea/index.tsx:12-17 | Going back from January gives December of the previous year; otherwise the previous month of the same year. |
| InfoArea.NextRollsOver | src/components/InfoArea/index.tsx:19-24 | Going forward from December gives January of the next year; otherwise the next month of the same year. |
| InfoArea.MonthOfIndex | src/components/InfoArea/index.tsx:15 | A month index moved by one lands in the neighbouring month, carrying into the year at the ends. |
| InfoArea.TwoDigitYear | src/components/InfoArea/index.tsx:14 | A year below 100 is read as 1900 plus it, so the arrows jump to the 1900s. |
| InfoArea.ShiftInverse | src/components/InfoArea/index.tsx:12-24 | Going back then forward, or forward then back, returns the same month. |
| InfoArea.ParseFormat | src/components/InfoArea/index.tsx:13-16 | A "year-month" string printed from a month reads back as that month through `Parse`. |
| InfoArea.ParseIgnoresTrailing | src/components/InfoArea/index.tsx:12-13 | `Parse` reads each piece up to its first non-digit, as `parseInt` does, so "2024-3x" reads as March 2024. |
| Text.ParseIntPrefix | src/components/InfoArea/index.tsx:13 | `parseInt` of a run of digits followed by a non-digit is the value of the run. |
| Text.ParseIntDigits | src/components/InfoArea/index.tsx:13 | On a string of digits alone `parseInt` gives the number those digits spell. |
| InfoArea.Step | src/components/InfoArea/index.tsx:12-24 | An arrow shows "NaN-NaN" exactly when the current string does not read as a month. |
| InfoArea.StepIgnoresTrailing | src/components/InfoArea/index.tsx:12-24 | Text after the month's digits does not change where an arrow leads. |
| InfoArea.StepRoundTrip | src/components/InfoArea/index.tsx:12-24 | Pressing one arrow and then the other shows the original month string again. |
| InfoArea.BalanceType | src/components/InfoArea/index.tsx:50 | The balance is typed 'expense' exactly when expense exceeds income, and 'income' otherwise. |
| InputArea.DateError | src/components/InputArea/index.tsx:28-61 | A date is accepted exactly when it is present, parses, and lies between five years before now and one day after now; each refusal is named by its own message. |
| InputArea.CategoryError | src/components/InputArea/index.tsx:63-76 | A category is accepted exactly when it is a registry key; an empty one is 'required' and any other unknown one 'invalid'. |
| InputArea.TitleError | src/components/InputArea/index.tsx:78-96 | A title is accepted exactly when its trimmed length is 3 to 50; blank, too short and too long each get their message. |
| InputArea.ValueError | src/components/InputArea/index.tsx:98-111 | A value is accepted exactly when it is in (0, 1000000]; not positive and too large each get their message. |
| InputArea.EmptyFormRejected | src/components/InputArea/index.tsx:11-14 | The untouched form fails every validator with its 'required' message, so nothing is added. |
| InputArea.AcceptedItemWellFormed | src/components/InputArea/index.tsx:139-160 | An accepted form gives a parsed date, a registered category and a value in (0, 1000000]. |
| InputArea.InputForm.constructor | src/components/InputArea/index.tsx:11-21 | The form starts with empty fields, a value of 0 and no error messages. |
| InputArea.InputForm.ClearFields | src/components/InputArea/index.tsx:171-176 | The four fields go back to empty and 0; the error messages stay. |
| InputArea.InputForm.HandleAddEvent | src/components/InputArea/index.tsx:130-169 | All four validators store their messages; an item is handed over exactly when all pass, built from the fields with the title untrimmed, and then the fields are cleared; otherwise the fields stay. |
| FilterArea.Optional | src/components/FilterArea/index.tsx:33-36 | An input is absent exactly when it is empty, and otherwise holds the parse of the text. |
| FilterArea.FilterForm.constructor | src/components/FilterArea/index.tsx:18-23 | All six inputs start empty. |
| FilterArea.FilterForm.Filters | src/components/FilterArea/index.tsx:28-40 | The text and category pass through, and each bound or date is set exactly when its input is non-empty, to the parse of that input. |
| FilterArea.FilterForm.Clear | src/components/FilterArea/index.tsx:42-49 | All six inputs go back to empty. |
| FilterArea.ClearedFormEmitsNoFilters | src/components/FilterArea/index.tsx:42-49 | Cleared inputs emit the empty filter, which raises no notice and lets every item through, whatever the parsers. |
| FilterArea.ActiveIffSomeInput | src/components/FilterArea/index.tsx:28-40 | The emitted filter is active exactly when some input is non-empty. |
| Records.IncomeExpensesSplit | src/components/SmartInsights/index.tsx:95-105 | The filtered expense and income sums are the sums of each transaction's contribution, and together they are the sum of all amounts. |
| Records.SplitCoversAll | src/components/SmartInsights/index.tsx:95-105 | Every transaction's amount counts once, as income or as expense. |
| Records.SavingsRate | src/components/SmartInsights/index.tsx:167-168 | The rate is 0 without income; with income it is negative exactly when expenses exceed income, at most 100 for non-negative expenses, and it times income is a hundred times the balance. |
| Records.SavingsRateCompare | src/components/SmartInsights/index.tsx:171-179 | With positive income, comparing the rate with `k` is comparing a hundred times the balance with `k` times income. |
| Records.ScaleCompare | src/components/SmartInsights/index.tsx:171-179 | Multiplying both sides by a positive number keeps a strict comparison, both ways. |
| Records.PercentOfScales | src/components/SmartInsights/index.tsx:155 | Of a positive whole, the percentage times the whole is a hundred times the part; of any other whole it is 0. |
| Records.PercentCompare | src/components/SmartInsights/index.tsx:155-162 | Of a positive whole, comparing the percentage with `k` is comparing the part with `k` % of the whole. |
| Records.PercentAbove | src/components/SmartInsights/index.tsx:155-162 | The percentage exceeds a non-negative `k` exactly when the whole is positive and the part exceeds `k` % of it. |
| Records.PreviousMonth | src/components/SmartInsights/index.tsx:62-65 | The previous month is one month index back, and stays in 1..12: January steps back to December of the year before. |
| Records.Find | src/components/SmartInsights/index.tsx:138 | The lookup finds no entry exactly when no entry has the name, and otherwise an entry with that name. |
| Records.BreakdownEntries | src/components/SmartInsights/index.tsx:135-146 | The dictionary holds one entry per category name in the list, with the sum of that name's amounts and the title and expense flag of its first transaction. |
| Records.BreakdownNames | src/components/SmartInsights/index.tsx:135-146 | The dictionary's names are distinct and are exactly the names occurring in the list. |
| Records.EntryStep | src/components/SmartInsights/index.tsx:136-146 | One transaction more keeps every entry in agreement with the longer list. |
| Records.FindAfterAccumulate | src/components/SmartInsights/index.tsx:137-145 | One step keeps every entry's name, title and flag, adds the amount to the entry of the transaction's name only, and appends a new entry for an unseen name. |
| Records.ZeroNamePart | src/components/SmartInsights/index.tsx:145 | A name absent from the list contributes nothing to any total. |
| Records.AccumulateBreakdown | src/components/SmartInsights/index.tsx:135-146 | The loop leaves exactly the dictionary of the whole list. |
| Records.AddTransaction | src/components/SmartInsights/index.tsx:137-145 | One loop body is one accumulation step: a zero entry for an unseen name, then the amount added. |
| Records.BreakdownPrefix | src/components/SmartInsights/index.tsx:136-146 | The dictionary after one more transaction is one accumulation step further. |
| Records.AccumulateCases | src/components/SmartInsights/index.tsx:138-145 | An unseen name gets a new entry; a known name has its entry updated. |
| Records.AppendThenAdd | src/components/SmartInsights/index.tsx:139-145 | Creating an entry with total 0 and then adding the amount appends the entry with that amount. |
| Records.TopExpense | src/components/SmartInsights/index.tsx:149-154 | None exactly when no entry is an expense; otherwise an expense entry with the largest total, the first such in insertion order. |
| FinancialSummary.PercentChange | src/components/FinancialSummary/index.tsx:109-112 | The change is 0 when the previous amount is not positive; otherwise it is positive exactly when the amount grew and negative exactly when it shrank. |
| FinancialSummary.KindOf | src/components/FinancialSummary/index.tsx:121 | A change is 'positive' exactly above zero and 'negative' exactly below. |
| FinancialSummary.InvertedKindOf | src/components/FinancialSummary/index.tsx:130 | For spending the reading is reversed: 'positive' exactly below zero, 'negative' exactly above. |
| FinancialSummary.SavingsIcon | src/components/FinancialSummary/index.tsx:146 | 🎯 exactly above 20 %, ⚡ exactly in (10 %, 20 %]. |
| FinancialSummary.CalculateMetrics | src/components/FinancialSummary/index.tsx:84-149 | Four cards in the order Receita, Gastos, Saldo, Taxa de Poupança, with the current totals and balance; each change kind follows the comparison with the previous period; the balance icon and the savings icon follow the current amounts. |
| FinancialSummary.SavingsAbove | src/components/FinancialSummary/index.tsx:95 | The savings rate exceeds `k` exactly when income is positive and the balance exceeds `k` % of income. |
| FinancialSummary.WeeksPartition | src/components/FinancialSummary/index.tsx:49-57 | The two weeks share no transaction, and together hold exactly the transactions dated from fourteen days ago on. |
| FinancialSummary.WeekTotals | src/components/FinancialSummary/index.tsx:86-92 | The current week's income and expenses add up to all its amounts. |
| FinancialSummary.PreviousOfJanuary | src/components/FinancialSummary/index.tsx:60-61 | The month view compares January with December of the year before, and every other month with the one before it. |
| Sums.Abs | src/components/SmartInsights/index.tsx:126-127 | `Math.abs` is non-negative and is the value or its negation. |
| SmartInsights.ComparisonTrend | src/components/SmartInsights/index.tsx:108-131 | The comparison card needs last month's expenses to be positive; it is 'up' exactly when spending grew by more than 5 %, 'down' exactly when it fell by more than 5 %, never flat, and coloured 'warning' exactly when 'up'. |
| SmartInsights.TopCategoryColor | src/components/SmartInsights/index.tsx:148-164 | The largest-category card exists exactly when some category total is an expense; it shows the largest expense total and is 'warning' exactly when that total exceeds 40 % of the month's expenses, 'info' otherwise. |
| SmartInsights.TopCardColor | src/components/SmartInsights/index.tsx:155-162 | A card for a category shows its total and is 'warning' exactly when the whole is positive and the total exceeds 40 % of it. |
| SmartInsights.SavingsColor | src/components/SmartInsights/index.tsx:166-198 | The savings card exists exactly when income is positive; 'danger' exactly when expenses exceed income, 'warning' exactly when less than 10 % of income is saved otherwise, 'success' exactly when at least 10 % is saved. |
| SmartInsights.Present | src/components/SmartInsights/index.tsx:113-197 | Keeping the cards that are present never lengthens the list. |
| SmartInsights.AnalyzeTransactions | src/components/SmartInsights/index.tsx:88-201 | The result is the present cards among comparison, largest category and savings, in that order, and has at most three cards. |
| SmartInsights.PushIfPresent | src/components/SmartInsights/index.tsx:157-163 | A present card is appended, an absent one leaves the list as it was. |
| SmartInsights.CardsNeedData | src/components/SmartInsights/index.tsx:108-167 | With no expenses last month, no income and no expense transaction this month, no card is produced. |
| SmartInsights.PresentThree | src/components/SmartInsights/index.tsx:113-200 | The present cards of three candidates are the first's, then the second's, then the third's. |
| SmartInsights.NoExpenseEntries | src/components/SmartInsights/index.tsx:135-151 | A month without expense transactions has no expense category totals. |
| SmartInsights.FirstWithNameIn | src/components/SmartInsights/index.tsx:138-143 | The category a total takes its title and flag from is that of a transaction of the month. |
| SmartAlerts.SpikeAlert | src/components/SmartAlerts/index.tsx:69-88 | A spike alert carries the id 'spending-spike'. |
| SmartAlerts.SpikeIff | src/components/SmartAlerts/index.tsx:70-79 | The spike alert fires exactly when twice the week's expenses times the day of the month exceed 21 times the month's expenses. |
| SmartAlerts.SpikeCard | src/components/SmartAlerts/index.tsx:80-87 | The spike alert is a warning with id 'spending-spike'. |
| SmartAlerts.SpikeCondition | src/components/SmartAlerts/index.tsx:74-79 | For a positive day, `a / 7 > b / day * 1.5` holds exactly when `2 * a * day > 21 * b`. |
| SmartAlerts.NoTransactionsTodayAlert | src/components/SmartAlerts/index.tsx:90-115 | The reminder fires exactly after 18:59 when no recent transaction falls on the current day, with id 'no-transactions-today'. |
| SmartAlerts.NoTransactionsTodayCard | src/components/SmartAlerts/index.tsx:97-114 | The reminder is an info alert with id 'no-transactions-today'. |
| SmartAlerts.FindGroup | src/components/SmartAlerts/index.tsx:121-124 | No group is found exactly when no group has the key; a found group has it. |
| SmartAlerts.GroupsSpec | src/components/SmartAlerts/index.tsx:118-125 | The groups have distinct keys, one per key occurring in the list, and each holds exactly the transactions with its key in list order. |
| SmartAlerts.AddToGroupsShape | src/components/SmartAlerts/index.tsx:120-124 | One step keeps the keys distinct and every group's key, appends the transaction to its key's group only, and creates that group at the end when it is missing. |
| SmartAlerts.NoKeyEmptyFilter | src/components/SmartAlerts/index.tsx:120 | A key no transaction carries selects none of them. |
| SmartAlerts.GroupByKey | src/components/SmartAlerts/index.tsx:118-125 | The loop leaves exactly the groups of the whole list. |
| SmartAlerts.DuplicatesAlert | src/components/SmartAlerts/index.tsx:127-138 | The duplicate alert fires exactly when some group has more than one transaction, with id 'duplicate-transactions'. |
| SmartAlerts.DuplicatesCard | src/components/SmartAlerts/index.tsx:130-137 | The duplicate alert is a warning with id 'duplicate-transactions'. |
| SmartAlerts.DuplicatesIff | src/components/SmartAlerts/index.tsx:118-128 | The duplicate alert fires exactly when two recent transactions share amount, category name and day. |
| SmartAlerts.SelectedTwiceShared | src/components/SmartAlerts/index.tsx:120-127 | A key selecting two transactions makes them share amount, category name and day. |
| SmartAlerts.SharedMakesGroup | src/components/SmartAlerts/index.tsx:118-127 | Two transactions sharing a key end in one group with more than one member. |
| SmartAlerts.FilterOne | src/components/SmartAlerts/index.tsx:127 | A filter keeps something exactly when some element satisfies the predicate. |
| SmartAlerts.FilterTwo | src/components/SmartAlerts/index.tsx:127 | A filter keeps two or more elements exactly when two positions satisfy the predicate. |
| SmartAlerts.WeekendAlert | src/components/SmartAlerts/index.tsx:140-158 | A weekend alert carries the id 'weekend-spending'. |
| SmartAlerts.WeekendIff | src/components/SmartAlerts/index.tsx:141-149 | The weekend alert fires exactly when the week had expenses and the Saturday and Sunday ones make up more than half of them. |
| SmartAlerts.WeekendCard | src/components/SmartAlerts/index.tsx:150-157 | The weekend alert is an info alert with id 'weekend-spending'. |
| SmartAlerts.BudgetAlert | src/components/SmartAlerts/index.tsx:160-191 | Only from the 25th: the warning exactly when the month's expenses exceed 2700 (90 % of 3000), the congratulation exactly when they are below 2100 (70 %), nothing else. |
| SmartAlerts.BudgetExceededCard | src/components/SmartAlerts/index.tsx:173-180 | The budget warning is a warning with id 'budget-almost-exceeded'. |
| SmartAlerts.BudgetOnTrackCard | src/components/SmartAlerts/index.tsx:182-189 | The congratulation is a success alert with id 'budget-on-track'. |
| SmartAlerts.TipAlert | src/components/SmartAlerts/index.tsx:193-221 | The tip fires exactly when the month has an expense and the draw is below 0.3; its message is one of the five tips. |
| SmartAlerts.AnalyzeForAlerts | src/components/SmartAlerts/index.tsx:63-224 | The result is the six rules' alerts in push order with the dismissed ids dropped, and no alert in it has a dismissed id. |
| SmartAlerts.AlertPanel.constructor | src/components/SmartAlerts/index.tsx:21-22 | No alerts and no dismissed ids at first. |
| SmartAlerts.AlertPanel.Dismiss | src/components/SmartAlerts/index.tsx:226-229 | The id is appended to the dismissed ones and the alerts carrying it are dropped, the others kept in order. |
| SmartAlerts.DismissedStaysOut | src/components/SmartAlerts/index.tsx:223-228 | Once dismissed, an id is dropped from every later analysis. |
| NotificationManager.DurationOr | src/components/NotificationManager/index.tsx:35 | An absent or zero duration falls back to the default; any other duration is kept. |
| NotificationManager.Refreshed | src/components/NotificationManager/index.tsx:56-58 | Same length; the entries with the id get the new creation time and keep every other field; the others are untouched. |
| NotificationManager.Newest | src/components/NotificationManager/index.tsx:72-77 | At most three entries: the queue itself when it fits, otherwise its last three. |
| NotificationManager.AppendValid | src/components/NotificationManager/index.tsx:61-70 | Appending a (message, type) pair not yet queued keeps the pairs distinct. |
| NotificationManager.SuffixValid | src/components/NotificationManager/index.tsx:73-75 | Dropping the oldest entries keeps the pairs distinct. |
| NotificationManager.AddedValid | src/components/NotificationManager/index.tsx:46-83 | Adding keeps the queue at three entries or fewer and without a repeated (message, type) pair. |
| NotificationManager.AddDuplicateRefreshes | src/components/NotificationManager/index.tsx:53-59 | A pair already queued does not grow the queue: that entry keeps its place and fields with its creation time moved to now, and no other entry changes except by the same refresh. |
| NotificationManager.AddNewAppends | src/components/NotificationManager/index.tsx:61-77 | A new pair is appended as the last entry; the queue grows by one below three entries and otherwise keeps the newest three, the earlier ones being a suffix of the old queue. |
| NotificationManager.NotificationCenter.constructor | src/components/NotificationManager/index.tsx:27 | The queue starts empty and valid. |
| NotificationManager.NotificationCenter.AddNotification | src/components/NotificationManager/index.tsx:46-83 | The queue becomes the added queue, stays valid, and the drawn id is returned. |
| NotificationManager.NotificationCenter.RemoveNotification | src/components/NotificationManager/index.tsx:85-87 | The queue becomes the old one without the entries carrying the id, and stays valid. |
| NotificationManager.NotificationCenter.Sweep | src/components/NotificationManager/index.tsx:30-43 | The queue keeps exactly the entries still alive at the tick, and stays valid. |
| NotificationManager.NotificationCenter.NotifySuccess | src/components/NotificationManager/index.tsx:107-110 | Adds a success entry lasting 3000 ms unless a non-zero duration is given. |
| NotificationManager.NotificationCenter.NotifyError | src/components/NotificationManager/index.tsx:112-115 | Adds an error entry lasting 5000 ms unless a non-zero duration is given. |
| NotificationManager.NotificationCenter.NotifyInfo | src/components/NotificationManager/index.tsx:117-120 | Adds an info entry lasting 4000 ms unless a non-zero duration is given. |
| NotificationManager.FilteredValid | src/components/NotificationManager/index.tsx:33-38 | Filtering a queue without repeated pairs leaves one without repeated pairs. |
| NotificationManager.RemoveExactly | src/components/NotificationManager/index.tsx:85-87 | Removal keeps the remaining entries in order and deletes exactly those with the id. |
| NotificationManager.SweepKeeps | src/components/NotificationManager/index.tsx:33-38 | The sweep keeps, in order, exactly the entries younger than their duration (3000 ms when absent or 0) plus 1000 ms. |
| NotificationManager.SweepBoundary | src/components/NotificationManager/index.tsx:35-37 | An entry with the default lifetime survives a sweep 3999 ms after creation and is gone at 4000 ms. |
| QuickTips.MappingsDefaults | src/components/QuickTips/index.tsx:114-132 | The colour and the label fall back to their defaults exactly outside the four categories, and the four get four different colours and labels. |
| QuickTips.TableShape | src/components/QuickTips/index.tsx:14-89 | The table has ten tips, each in one of the four categories. |
| QuickTips.DistinctIds | src/components/QuickTips/index.tsx:14-89 | No two tips share an id. |
| QuickTips.IndexOfId | src/components/QuickTips/index.tsx:104 | The index is -1 exactly when no tip has the id, and otherwise a place holding a tip with it. |
| QuickTips.IndexOfOwnId | src/components/QuickTips/index.tsx:104 | Each tip is found at its own place. |
| QuickTips.NextIndex | src/components/QuickTips/index.tsx:105 | The next index is a valid place of the table. |
| QuickTips.NextIndexSteps | src/components/QuickTips/index.tsx:104-105 | The rotation steps one place forward, from the last tip back to the first, and from no tip to the first. |
| QuickTips.ProgressBounds | src/components/QuickTips/index.tsx:189-195 | The counter of the tip at place `i` is `i + 1`, between 1 and 10. |
| QuickTips.QuickTipCard.constructor | src/components/QuickTips/index.tsx:96-101 | The mount shows the tip at the drawn index, not dismissed. |
| QuickTips.QuickTipCard.GetNextTip | src/components/QuickTips/index.tsx:103-108 | Shows the first tip when there is none, otherwise the tip after the current one in rotation, and clears the dismissal. |
| QuickTips.QuickTipCard.DismissTip | src/components/QuickTips/index.tsx:110-112 | Hides the card and keeps the tip. |
| QuickTips.NextTipFollows | src/components/QuickTips/index.tsx:103-106 | "Next" on the tip at place `i` shows the tip at place `(i + 1) % 10`. |
| RegisterForm.CheckOrder | src/components/Auth/RegisterForm.tsx:26-39 | Each refusal happens exactly when its check fails and the earlier ones pass (missing field, then mismatch, then fewer than 6 characters), and the form goes through exactly when all pass. |
| RegisterForm.MessagesDistinct | src/components/Auth/RegisterForm.tsx:27-37 | The three refusals show three different messages. |
| RegisterForm.Form.constructor | src/components/Auth/RegisterForm.tsx:14-18 | All four fields empty, not submitting. |
| RegisterForm.Form.HandleSubmit | src/components/Auth/RegisterForm.tsx:23-62 | A refusal returns the first failing check and changes nothing; otherwise the name, e-mail and password are sent, a created account clears all four fields, and the submitting flag ends down. |
| AiContext.MarkedRead | src/contexts/AiContext.tsx:71-75 | Marking keeps the length. |
| AiContext.MarkedReadSpec | src/contexts/AiContext.tsx:71-75 | Items with the id become read and keep every other field; every other item is untouched. |
| AiContext.MarkedReadIdempotent | src/contexts/AiContext.tsx:71-75 | Marking the same id twice is marking it once. |
| AiContext.MarkAbsentId | src/contexts/AiContext.tsx:71-75 | Marking an id nobody carries changes nothing. |
| AiContext.AiProvider.constructor | src/contexts/AiContext.tsx:18-20 | No recommendations, not loading, not generating. |
| AiContext.AiProvider.LoadRecommendations | src/contexts/AiContext.tsx:25-42 | With a token and a user the list becomes the server's answer (unchanged on failure) and loading ends; without them nothing changes. |
| AiContext.AiProvider.GenerateRecommendation | src/contexts/AiContext.tsx:44-61 | Without a token, an error and no change; on success the new recommendation goes in front with a success notice; on failure an error, a rethrow and an unchanged list; generating ends down. |
| AiContext.AiProvider.MarkAsRead | src/contexts/AiContext.tsx:63-80 | Without a token, an error and no change; once accepted the items with the id are read; on refusal an error, a rethrow and an unchanged list. |
| RecommendationsList.BadgeFallback | src/components/AiAdvisor/RecommendationsList.tsx:14-39 | Colour and label fall back to 'badge-info' and 'Geral' exactly outside SAVING, INVESTMENT and BUDGET, and those three get different colours and labels. |
| RecommendationsList.Paragraphs | src/components/AiAdvisor/RecommendationsList.tsx:76 | The content splits into at least one paragraph. |
| RecommendationsList.ParagraphsRoundTrip | src/components/AiAdvisor/RecommendationsList.tsx:76 | Joining the paragraphs with a blank line gives the content back, and no paragraph contains a blank line. |
| RecommendationsList.ClickRequest | src/components/AiAdvisor/RecommendationsList.tsx:66 | A click asks to mark the card exactly when it is unread, with its id. |
| RecommendationsList.ClickMarksCard | src/components/AiAdvisor/RecommendationsList.tsx:66-84 | An accepted click leaves the card read and without the "Novo" badge; a click on a read card asks nothing. |
| ServerStore.FindOwned | server/src/controllers/categoryController.js:25-30 | No row is found exactly when no row has both the id and the owner; a found row is the first with both. |
| ServerStore.Without | server/src/controllers/categoryController.js:108-109 | Destroying by id keeps exactly the rows with another id. |
| ServerStore.WithoutRemovesOne | server/src/controllers/transactionController.js:201-202 | With distinct primary keys, destroying the row at a place removes that row alone and keeps the others in order. |
| ServerStore.Database.constructor | server/src/models/index.js:1-29 | All four tables start empty, with the key constraint holding. |
| ServerStore.Database.FreshId | server/src/models/index.js:1-29 | The drawn id is the counter's, which advances; no table changes and the key constraint keeps holding. |
| ServerStore.Database.AddRecommendation | server/src/controllers/aiController.js:98-103 | The row is appended to the recommendations under the next id; the other tables stay as they were. |
| ServerStore.AppendFresh | server/src/controllers/categoryController.js:50-56 | Appending a row under the counter's id keeps the keys distinct and below the advanced counter. |
| ServerStore.SameKeys | server/src/controllers/categoryController.js:79-86 | Rows that keep their ids keep the key constraint. |
| ServerStore.WithoutKeys | server/src/controllers/categoryController.js:108-109 | Removing rows keeps the key constraint. |
| ServerStore.SubsequenceKeys | server/src/controllers/transactionController.js:40-49 | A selection of rows in order keeps the key constraint. |
| ServerStore.SubsequenceMembers | server/src/controllers/transactionController.js:40-49 | Every row of a selection is a row of the table. |
| CategoryController.NameLeTotalPreorder | server/src/controllers/categoryController.js:10 | The name order is total and transitive, so the sort is well defined. |
| CategoryController.GetCategories | server/src/controllers/categoryController.js:6-18 | Exactly the caller's categories, each as often as stored, sorted by name. |
| CategoryController.GetCategoryById | server/src/controllers/categoryController.js:23-41 | Found exactly when the caller owns a category with the id, which is returned; 404 otherwise. |
| CategoryController.MergeCategory | server/src/controllers/categoryController.js:80-83 | Name, title and color are replaced only by a truthy value, the expense flag by any value sent; id and owner never change. |
| CategoryController.EmptyPatchKeepsRow | server/src/controllers/categoryController.js:80-83 | A body with no truthy string and no flag changes nothing. |
| CategoryController.MergeIdempotent | server/src/controllers/categoryController.js:79-86 | Sending the same body twice is sending it once. |
| CategoryController.CreateCategory | server/src/controllers/categoryController.js:46-63 | With name, title and color a new row of the caller with those fields is appended (expense by default) and 201 returned; a missing one gives 500 and nothing stored; other tables untouched. |
| CategoryController.UpdateCategory | server/src/controllers/categoryController.js:68-94 | 404 and no change when the caller owns no such category; otherwise the merged row replaces it in place and nothing else changes. |
| CategoryController.DeleteCategory | server/src/controllers/categoryController.js:99-118 | 404 and no change when the caller owns no such category; otherwise exactly that row goes and no other table changes. |
| TransactionController.DateDescTotalPreorder | server/src/controllers/transactionController.js:48 | Newest-first is total and transitive, so the sort is well defined. |
| TransactionController.GetTransactions | server/src/controllers/transactionController.js:7-56 | Exactly the caller's transactions matching the month window (when month and year are both given) and the kind (when a type is given), each as often as stored, newest first. |
| TransactionController.ListingIsOwnerScoped | server/src/controllers/transactionController.js:11-40 | Only the caller's transactions are listed, and without month or type all of them are. |
| TransactionController.LastDayAfterMidnightExcluded | server/src/controllers/transactionController.js:15-20 | The window ends at midnight of the last day, so a transaction later on that day falls in neither that month's window nor the next one's. |
| TransactionController.GetTransactionById | server/src/controllers/transactionController.js:61-85 | Found exactly when the caller owns a transaction with the id, which is returned; 404 otherwise. |
| TransactionController.FindOwnedCategory | server/src/controllers/transactionController.js:95-100 | The lookup finds a category exactly when the caller owns one with the id. |
| TransactionController.CreateTransaction | server/src/controllers/transactionController.js:90-130 | 400 and nothing stored when the category is not the caller's; otherwise 201 and a new row of the caller with the given fields and parsed date; other tables untouched. |
| TransactionController.MergeTransaction | server/src/controllers/transactionController.js:161-165 | Title and date are replaced only by a truthy value, amount and description by any value sent, the category by any id sent; id and owner never change. |
| TransactionController.ZeroAmountAppliedEmptyTitleIgnored | server/src/controllers/transactionController.js:161-162 | An amount of 0 is applied while an empty title is ignored. |
| TransactionController.UpdateTransaction | server/src/controllers/transactionController.js:135-187 | A category sent that is not the caller's gives 400 before the lookup; an unowned transaction gives 404; both change nothing; whenever the category is the caller's (or none is sent) and the caller owns the transaction the answer is 200 and the merged row replaces the old one in place. |
| TransactionController.DeleteTransaction | server/src/controllers/transactionController.js:192-211 | 404 and no change for an unowned transaction; otherwise exactly that row goes. |
| TransactionController.GetTransactionSummary | server/src/controllers/transactionController.js:216-269 | Twelve lines numbered 1 to 12 for the query's year (the current one by default), each with the month's name, the caller's income and expense totals in that month's window, and income minus expenses. |
| TransactionController.SummaryAgreesWithListing | server/src/controllers/transactionController.js:14-37 | A month's summary total of a kind is the sum of the amounts the listing gives for that month, year and type. |
| AuthController.ReplaceKeepsEmails | server/src/controllers/authController.js:69-71 | Updating a user without changing the e-mail keeps addresses unique. |
| AuthController.Register | server/src/controllers/authController.js:16-52 | 400 and no change when the e-mail is taken; otherwise a new unverified user holding the verification token is stored, answered by 201 when the mail goes out and 500 when it fails; e-mails stay unique. |
| AuthController.VerifyEmail | server/src/controllers/authController.js:57-78 | 400 and no change for an unknown token; otherwise the first user holding it is verified and the token cleared. |
| AuthController.Login | server/src/controllers/authController.js:83-110 | A session only for an existing, verified user whose password matches; an unknown e-mail gives bad credentials; 'unverified' only for an existing user whose password matches. |
| AuthController.LoginByOwner | server/src/controllers/authController.js:88-105 | With unique e-mails the address's owner alone decides: session, unverified or bad credentials as the password and the flag say. |
| AuthController.ForgotPassword | server/src/controllers/authController.js:115-142 | 404 and no change for an unknown e-mail; otherwise the user holds the new reset token, valid for one hour from now, and the answer is 200 when the mail goes out and 500 when it fails, the token staying stored. |
| AuthController.ResetPasswordAsWritten | server/src/controllers/authController.js:147-175 | The handler as written always answers 500. |
| AuthController.ResetAsWrittenRejectsFreshToken | server/src/controllers/authController.js:153-157 | Even a token issued by the forgot-password handler and used within the hour gets 500. |
| AuthController.ResetPassword | server/src/controllers/authController.js:147-175 | As intended: 400 and no change for an unknown or expired token; otherwise the holder gets the new password and both reset fields are cleared. |
| AuthController.ResetTokenLifetime | server/src/controllers/authController.js:131 | A reset token is accepted exactly before issue time plus one hour. |
| AuthController.ResetTokenSingleUse | server/src/controllers/authController.js:165-167 | A used reset token cannot reset the password again. |
| AuthController.Lifecycle | server/src/controllers/authController.js:16-110 | After registering a fresh address, logging in with the registered password is refused as unverified, and after verifying with the mailed token it succeeds. |
| AiService.KindName | server/src/services/aiService.js:16-35 | The type is one of BUDGET, SAVING, INVESTMENT, GENERAL. |
| AiService.Classify | server/src/services/aiService.js:20-36 | BUDGET exactly below 0, SAVING exactly in [0, 10), INVESTMENT exactly above 50, GENERAL exactly in [10, 50]. |
| AiService.TitlesDistinct | server/src/services/aiService.js:21-33 | Each kind has its own title. |
| AiService.ShareAbove40Positive | server/src/services/aiService.js:45-47 | With positive expenses, the share test is the plain proportion test. |
| AiService.GenerateFinancialAdvice | server/src/services/aiService.js:9-68 | The type follows the decision table, the title is that kind's, and the content is the opening, the optional top-category paragraph and the tip. |
| AiService.AppendTopCategory | server/src/services/aiService.js:39-50 | The step appends the paragraph exactly as the body function does. |
| AiService.EndsWithTip | server/src/services/aiService.js:53-65 | The content always ends with the tip paragraph, and the tip is one of the eight. |
| AiService.ParagraphIffDominant | server/src/services/aiService.js:39-50 | With positive expenses, the paragraph is added exactly when the largest expense entry exceeds 40 % of the expenses. |
| AiService.NoExpenseEntriesNoParagraph | server/src/services/aiService.js:43 | Without expense entries the body is the opening alone. |
| AiController.CreatedDescTotalPreorder | server/src/controllers/aiController.js:12 | Newest-first by creation is total and transitive. |
| AiController.OwnRecommendations | server/src/controllers/aiController.js:10-12 | Exactly the caller's recommendations, each as often as stored, newest first. |
| AiController.GetRecommendations | server/src/controllers/aiController.js:8-21 | At most ten: a prefix of the caller's recommendations newest first, all of them when fewer than ten. |
| AiController.ListingIsNewestOwn | server/src/controllers/aiController.js:10-14 | Only the caller's rows, newest first, and no left-out row of the caller is newer than a listed one. |
| AiController.RecentRows | server/src/controllers/aiController.js:33-45 | Exactly the caller's transactions dated at or after the cutoff, each as often as stored, newest first. |
| AiController.CategoryOf | server/src/controllers/aiController.js:38-43 | No category is found exactly when none has the transaction's category id; a found one has it. |
| AiController.Join | server/src/controllers/aiController.js:38-54 | The join fails exactly when some row's category is gone; otherwise each row is joined with its category in order. |
| AiController.Aggregate | server/src/controllers/aiController.js:48-81 | The loop leaves the income and expense totals and the per-name entries of the whole list. |
| AiController.ContextTotals | server/src/controllers/aiController.js:48-92 | The totals split the amounts by flag and together are their sum; each entry agrees with the list; the balance is income minus expenses; the count is the list's length. |
| AiController.BudgetIffDeficit | server/src/controllers/aiController.js:84-92 | The advice is a budget warning exactly when there is income and expenses exceed it, and the deficit it reports is expenses minus income. |
| AiController.AdviseOn | server/src/controllers/aiController.js:47-95 | The advice on the transactions is the service's advice on their context. |
| AiController.GeneratedIff | server/src/controllers/aiController.js:26-104 | Nothing is created exactly when a transaction of the caller in the window refers to a category id with no row; what is created is the caller's, unread, created now, under the given id. |
| AiController.Prepare | server/src/controllers/aiController.js:29-95 | The query, join and service call give the generated row, the caller's, unread, created now. |
| AiController.GenerateRecommendation | server/src/controllers/aiController.js:26-110 | The generated row is appended under the next id with 201, or 500 and nothing stored when the join fails; other tables untouched. |
| AiController.MarkRecommendationAsRead | server/src/controllers/aiController.js:115-136 | 404 and no change when the caller owns no such recommendation; otherwise only that row's read flag is set. |
| Formatters.Substring | src/helpers/formatters.ts:30 | The cut has length `n` clamped to the text and is a prefix of it. |
| Formatters.TruncateTextSpec | src/helpers/formatters.ts:28-31 | A text that fits comes back unchanged; a longer one becomes a prefix followed by '...'; with a limit of 3 or more the result never exceeds the limit and a cut text has exactly that length. |
| Formatters.TruncateDefault | src/helpers/formatters.ts:28-31 | With the default limit of 25, every longer text becomes its first 22 characters and '...', and every other text is kept. |
| Formatters.TruncateIdempotent | src/helpers/formatters.ts:28-31 | Truncating twice with the same limit of 3 or more is truncating once. |
| Formatters.FormatPercentage | src/helpers/formatters.ts:18-20 | The text ends in '%' and before it is the fraction times 100 with one decimal. |
| Formatters.PercentageScales | src/helpers/formatters.ts:14-20 | Every fraction is rendered as its hundredfold and '%', two fractions read alike exactly when their hundredfolds do, and 0.1 reads as 10 per cent. |
| ExportRows.ObjectKeys | src/services/export/strategies/CsvExportStrategy.ts:10 | One key per field of the object. |
| ExportRows.LookupFinds | src/services/export/strategies/CsvExportStrategy.ts:16 | In an object without repeated keys, reading a key gives the value stored with it. |
| ExportRows.LookupAbsent | src/services/export/strategies/PdfExportStrategy.ts:109 | A key the object lacks reads as `undefined`. |
| ExportTypes.KeysInjective | src/services/export/types.ts:2-4 | Different formats and different export types are passed on as different strings. |
| TransactionFormatter.RegistryNames | src/services/export/formatters/TransactionFormatter.ts:26-32 | With the application's registry, the name is 'Desconhecida' exactly for an unregistered key, and the registered title otherwise. |
| TransactionFormatter.Format | src/services/export/formatters/TransactionFormatter.ts:14-24 | One row per transaction. |
| TransactionFormatter.FormatSpec | src/services/export/formatters/TransactionFormatter.ts:14-24 | Row `i` has the keys Data, Categoria, Título, Valor once each in that order, holding the formatted date, the category name, the title and the formatted amount of transaction `i`. |
| RecommendationFormatter.TypeLabelSpec | src/services/export/formatters/RecommendationFormatter.ts:22-31 | An unknown type passes through unchanged, a known one gets a label other than itself, the same label the cards show; an unknown type other than 'Geral' is exported differently from the card's 'Geral'. |
| RecommendationFormatter.Format | src/services/export/formatters/RecommendationFormatter.ts:12-20 | One row per recommendation. |
| RecommendationFormatter.FormatSpec | src/services/export/formatters/RecommendationFormatter.ts:12-20 | Row `i` has its five keys once each in order; title and content are copied, the type is its label, and Lida reads 'Sim' exactly when the recommendation is read. |
| Web3AssetFormatter.Format | src/services/export/formatters/Web3AssetFormatter.ts:13-22 | One row per asset. |
| Web3AssetFormatter.TokenTypeNameInjective | src/services/export/formatters/Web3AssetFormatter.ts:18 | The token standard can be read back from its name. |
| Web3AssetFormatter.HeadersDistinct | src/services/export/formatters/Web3AssetFormatter.ts:3-10 | No key repeats and none is an attribute of the asset itself. |
| Web3AssetFormatter.FormatSpec | src/services/export/formatters/Web3AssetFormatter.ts:13-22 | Row `i` has its six keys once each in order; name, symbol, balance and network are copied, the standard is written by name, and id, contract address and owner are not exported. |
| ExportService.TypeNameSpec | src/services/export/ExportService.ts:35-41 | The three known types get three different file names, none the type itself; any other type is used as it is. |
| ExportService.FilenameShape | src/services/export/ExportService.ts:33-43 | The file name is the type's name, an underscore, the day, a dot and the format. |
| ExportService.TitleForSpec | src/services/export/ExportService.ts:45-53 | The fallback title is used exactly for types outside the three. |
| ExportService.ChosenTitleSpec | src/services/export/ExportService.ts:24 | A non-empty title given by the caller wins; otherwise the type's title is used. |
| ExportService.Service.constructor | src/services/export/ExportService.ts:9-14 | CSV, JSON and PDF each have their strategy registered. |
| ExportService.Service.Export | src/services/export/ExportService.ts:16-31 | Fails with the unsupported-format message exactly for a format without a strategy; otherwise that format's strategy receives the rows unchanged, the generated file name and the chosen title. |
| ExportService.StrategiesDistinct | src/services/export/ExportService.ts:9-14 | Each supported format has its own strategy. |
| CsvExportStrategy.Lines | src/services/export/strategies/CsvExportStrategy.ts:14-21 | One line per row. |
| CsvExportStrategy.BuildContent | src/services/export/strategies/CsvExportStrategy.ts:6-22 | The accumulated text is the prefix, the header line and every row's line in order. |
| CsvExportStrategy.Export | src/services/export/strategies/CsvExportStrategy.ts:4-36 | The link receives the CSV text of the rows and the payload's file name. |
| CsvExportStrategy.EmptyData | src/services/export/strategies/CsvExportStrategy.ts:6-8 | No rows give the prefix alone, with no line at all. |
| CsvExportStrategy.HeaderLine | src/services/export/strategies/CsvExportStrategy.ts:8-11 | With rows, the text opens with the prefix and the first row's keys joined by commas on a line of their own. |
| CsvExportStrategy.LineCount | src/services/export/strategies/CsvExportStrategy.ts:15-20 | A row's line holds exactly one newline when its fields hold none. |
| CsvExportStrategy.HeaderNewlines | src/services/export/strategies/CsvExportStrategy.ts:6-11 | The prefix and header line hold one newline when no header holds one. |
| CsvExportStrategy.NewlineCount | src/services/export/strategies/CsvExportStrategy.ts:6-22 | Non-empty output has one line per row plus the header line. |
| CsvExportStrategy.QuotesNotDoubled | src/services/export/strategies/CsvExportStrategy.ts:18 | A string with a comma gains exactly two quote characters and one without is unchanged: embedded quotes are not doubled. |
| CsvExportStrategy.UnescapedQuoteExample | src/services/export/strategies/CsvExportStrategy.ts:18 | The value `a,"b` comes out as `"a,"b"`, a quoted field with three quote characters. |
| PdfExportStrategy.Cells | src/services/export/strategies/PdfExportStrategy.ts:108-110 | One cell per header. |
| PdfExportStrategy.Rows | src/services/export/strategies/PdfExportStrategy.ts:106-112 | One table row per row of data. |
| PdfExportStrategy.GenerateHtml | src/services/export/strategies/PdfExportStrategy.ts:26-126 | The page is the opening with the first row's keys as headers, each row's `<tr>` in order, and the closing. |
| PdfExportStrategy.Export | src/services/export/strategies/PdfExportStrategy.ts:4-24 | The page when the window opens; otherwise the single error 'Erro ao exportar PDF'. |
| PdfExportStrategy.InOpening | src/services/export/strategies/PdfExportStrategy.ts:82-104 | Text of the opening is text of the page. |
| PdfExportStrategy.TitleTwice | src/services/export/strategies/PdfExportStrategy.ts:88-93 | The title appears as the document title and as the page heading. |
| PdfExportStrategy.EmptyData | src/services/export/strategies/PdfExportStrategy.ts:80-112 | No rows give no header cells and no body rows. |
| PdfExportStrategy.RowLayout | src/services/export/strategies/PdfExportStrategy.ts:106-112 | Table row `i` is a `<tr>` whose `k`-th cell shows row `i`'s value under the first row's `k`-th key, empty for a missing key. |
| PdfExportStrategy.FalsyCells | src/services/export/strategies/PdfExportStrategy.ts:109 | A falsy value, 0 and false included, renders as an empty cell and any other value as its text, while the CSV export writes 0 and false out. |
| LegacyExportArea.DefaultCategoryNames | src/components/ExportArea/index.tsx:31-37 | Without a categories prop the name is 'Desconhecida' exactly for a key the registry lacks, and the registered title otherwise. |
| LegacyExportArea.DecimalCommaSpec | src/components/ExportArea/index.tsx:50 | Replacing the first '.' keeps the length, leaves a text without '.' unchanged, and otherwise turns exactly one '.' into ','; a number with one '.' comes out with none. |
| LegacyExportArea.ReplaceAtCount | src/components/ExportArea/index.tsx:50 | Replacing one character changes a character count by that character alone. |
| LegacyExportArea.CountCharPositive | src/components/ExportArea/index.tsx:50 | A character that occurs is counted at least once. |
| LegacyExportArea.EscapeRoundTrip | src/components/ExportArea/index.tsx:117 | Doubling the quotes is undone by halving them, and doubles the quote count. |
| LegacyExportArea.RecommendationContentField | src/components/ExportArea/index.tsx:116-119 | In a recommendation's line the escaped content sits between two quotes, reads back as the content, and holds twice its quotes. |
| LegacyExportArea.TransactionLines | src/components/ExportArea/index.tsx:47-53 | One line per transaction. |
| LegacyExportArea.CryptoLines | src/components/ExportArea/index.tsx:82-86 | One line per asset. |
| LegacyExportArea.RecommendationLines | src/components/ExportArea/index.tsx:115-120 | One line per recommendation. |
| LegacyExportArea.TransactionsCsv | src/components/ExportArea/index.tsx:40-53 | The text is the data-URI prefix, the fixed header, and every transaction's line in order. |
| LegacyExportArea.CryptoCsv | src/components/ExportArea/index.tsx:75-86 | The text is the data-URI prefix, the fixed header, and every asset's line in order. |
| LegacyExportArea.RecommendationsCsv | src/components/ExportArea/index.tsx:108-120 | The text is the data-URI prefix, the fixed header, and every recommendation's line in order. |
| LegacyExportArea.TransactionsHeaderJoin | src/components/ExportArea/index.tsx:44 | The fixed header is the transaction formatter's keys joined by commas, then a newline. |
| LegacyExportArea.TransactionsHeaderAgrees | src/components/ExportArea/index.tsx:44 | For a non-empty list the fixed header is the header line the CSV strategy writes for the formatted rows. |
| LegacyExportArea.TransactionLineCommas | src/components/ExportArea/index.tsx:52 | A line ends in a newline and holds three commas more than its four fields, so a comma inside a field shifts the columns. |
| LegacyExportArea.AgreesWithService | src/components/ExportArea/index.tsx:59-299 | The download names and report titles are those the export service generates for the same type. |
| LegacyExportArea.TransactionsJsonData | src/components/ExportArea/index.tsx:146-151 | One object per transaction. |
| LegacyExportArea.TransactionsJsonSpec | src/components/ExportArea/index.tsx:146-151 | Object `i` has keys date, category, title and value in order, holding the category name, the title and the raw amount of transaction `i`. |
| LegacyExportArea.PdfContentSpec | src/components/ExportArea/index.tsx:662 | Up to 100 characters the content is kept; longer content keeps its first 100 and gets '...', 103 in all, so contents of 101 or 102 characters come out longer and differ from `truncateText(content, 103)`, which agrees everywhere else. |
| LegacyExportArea.TransactionsPdfHtml | src/components/ExportArea/index.tsx:326-449 | The page is the template with the transaction keys as headers and every transaction's row in order. |
| LegacyExportArea.CryptoPdfHtml | src/components/ExportArea/index.tsx:452-570 | The page is the template with the asset keys as headers and every asset's row in order. |
| LegacyExportArea.RecommendationsPdfHtml | src/components/ExportArea/index.tsx:574-692 | The page is the template with the recommendation keys as headers and every recommendation's row in order. |
| LegacyExportArea.DispatchBijective | src/components/ExportArea/index.tsx:721-766 | Each format and type pair runs its own builder, and every builder is reached by exactly one pair. |
| LegacyExportArea.NothingMessageShape | src/components/ExportArea/index.tsx:705 | The message has the type's label, lower-cased, between 'Não há ' and ' para exportar'. |
| LegacyExportArea.NothingMessagesDistinct | src/components/ExportArea/index.tsx:705 | The three types refuse with three different messages. |
| LegacyExportArea.LabelInitials | src/components/ExportArea/index.tsx:778-785 | The labels start with three different capital letters. |
| LegacyExportArea.MessagesDiffer | src/components/ExportArea/index.tsx:705 | Labels with different capital initials give different messages. |
| LegacyExportArea.ButtonTextSpec | src/components/ExportArea/index.tsx:913 | Idle, the button reads 'Exportar ' and the type's label, different for each type; exporting, it reads the same whatever the type. |
| LegacyExportArea.Panel.constructor | src/components/ExportArea/index.tsx:25-27 | Transactions as CSV, not exporting. |
| LegacyExportArea.Panel.HandleExport | src/components/ExportArea/index.tsx:697-775 | With nothing of the selected type the export is refused with that type's message and nothing changes; otherwise the builder of the selected format and type runs, and the panel stays busy only while a PDF window waits to print. |
| LegacyExportArea.Panel.PrintDone | src/components/ExportArea/index.tsx:247-251 | The print timer ends the busy state and keeps the selection. |
| ExportPanel.CountMatchesGuard | src/components/ExportArea/ExportArea.tsx:39-117 | The count is 0 exactly when the full panel refuses the type; the button is enabled exactly when not exporting and there is data; idle, it is disabled exactly when the no-data note shows. |
| ExportPanel.RequestsSupported | src/components/ExportArea/ExportArea.tsx:35-37 | Every format and type the panel can send is registered with the export service. |
| ExportPanel.MissingCategoriesDiffer | src/components/ExportArea/ExportArea.tsx:20 | Without a categories prop every name is 'Desconhecida', where the full panel shows the registered title. |
| ExportPanel.Panel.constructor | src/components/ExportArea/ExportArea.tsx:24-26 | Collapsed, transactions, CSV. |
| ExportPanel.Panel.Toggle | src/components/ExportArea/ExportArea.tsx:56 | The header click flips the expansion and keeps the selection. |
| ExportPanel.Panel.SelectType | src/components/ExportArea/ExportArea.tsx:74-77 | The type changes only while not exporting. |
| ExportPanel.Panel.SelectFormat | src/components/ExportArea/ExportArea.tsx:93-96 | The format changes only while not exporting. |
| ExportPanel.Panel.Click | src/components/ExportArea/ExportArea.tsx:35-37 | The click asks for an export exactly when not exporting and there is data, with the selected format and type. |

## Left out

- HTTP and routing: request parsing, response serialisation and status codes are result tags; the routes, `src/services/api.ts` and `fetch` in the components are not part of this model.
- App.Totals: requires every displayed item's category to be registered; the source reads `categories[key].expense` unguarded and would throw on an unknown key, which the item form's category check keeps out of the list, so that throw is not modelled.
- ChartArea.ExpensesByCategory: requires every item's category to be registered, for the same unguarded registry read; the throw on an unknown key is not modelled.
- CategoryController.DeleteCategory: the foreign key's referential action is not modelled; transactions keep the deleted id, which is how a listing can meet a transaction without a category.
- Sequelize: the tables are sequences in one store class, and the 500 answers of a failing database are modelled only where a handler's own code raises them.
- `web3Controller.js`, `Web3Context.tsx` and `WalletConnect.tsx`: wallet and RPC access are not part of this model; only the asset rows the exporters read are.
- Password hashing, `jwt.sign`, `crypto.randomBytes` and e-mail sending: hashes and tokens are parameters; the mail transport is not modelled, and whether the send succeeds is the `mailSent` parameter of `AuthController.Register` and `AuthController.ForgotPassword`.
- Clocks and randomness: `Date.now`, `new Date()`, the hour of the day and `Math.random` are parameters, and a tip or id choice is an index given by the caller.
- Locale formatting: `toFixed`, `toLocaleString`, `Intl.NumberFormat`, `formatDate`, `formatCurrency`, `new Date(string)` and `parseFloat` are function parameters with no properties assumed.
- Time zones and daylight saving: local time is taken to be UTC, so a day is always 86400000 ms.
- Time.CivilFromDays: the conversion from day numbers to civil dates is written as the usual era arithmetic; its ranges are proved but not that it inverts `DaysFromCivil`.
- Floating point: money and percentages are exact reals, so rounding of sums and `toFixed` cut-offs are not modelled.
- String lengths count characters, not UTF-16 code units, and `toLowerCase` is modelled on ASCII letters only.
- Text.Trim: the whitespace `trim` strips is modelled without U+1680, U+2000 to U+200A, U+202F, U+205F and U+3000, so a title padded with those counts them.
- InfoArea.Parse: `parseInt` without a radix reads a "0x" prefix as hexadecimal; the model reads decimal digits only, which is all a month string the app prints holds.
- Records.AccumulateBreakdown: category totals are kept in a list keyed by name; a name that is also an `Object.prototype` property such as "constructor" or "__proto__", and the integer-like names that `Object.entries` lists first, are not modelled (the same holds for the name-keyed totals of `aiController.js` and SmartAlerts).
- CategoryController.GetCategories: names are compared by code point; the database's collation for `ORDER BY name` may order them differently.
- JSON export: `JSON.stringify` is a library serialiser; the JSON strategy and the older panel's JSON builders are modelled as dispatch, and the older panel's mapped transaction objects as `LegacyExportArea.TransactionsJsonData`.
- Browser APIs: `encodeURI`, `Blob`, object URLs, the download link, `window.open`, `document.write` and `print` are not modelled; the HTML page is the string the code writes.
- LegacyExportArea.Panel.HandleExport: the 500 ms print timer is the separate step `PrintDone`; the safety timeout is cleared in `finally` before it can fire, so it is left out; the notification texts beyond the empty-data message, the second error notification of a blocked pop-up and the rethrows of DOM failures are not modelled.
- LegacyExportArea.Panel.HandleExport: the button is disabled while exporting, but the method itself does not refuse a call made while an export is running.
- ExportPanel.Panel: the `isExporting` flag of the `useExport` hook is a parameter, not state the panel owns.
- PdfExportStrategy: the page's fixed markup and styles are a layout parameter; only the title, the headers and the cells are modelled character by character.
- InputArea.InputForm.HandleAddEvent: the 300 ms delay, the `isSubmitting` flag, a throwing `onAdd`, and messages left over from an earlier submission are not modelled.
- Sorting: the order the database gives rows with equal sort keys is not modelled; the model promises only a sorted permutation, so rows with equal keys may come in any order.
- SmartAlerts.AnalyzeForAlerts: the source declares `const today` twice in one scope (lines 91 and 161), which does not compile; the model reads the two as separate values taken from the same clock.
- Notification component: its progress bar and its own close timers are not modelled; the manager's sweep is.
- `src/utils/pdfUtils.ts`, `src/utils/pdfConfig.ts` and the build configuration: jsPDF and bundler settings, not part of this model.
- `src/components/Auth/LoginForm.tsx` (pasted three times) and `src/services/aiAPI.ts` (uses an undefined `api`) do not compile and are not part of this model.
- JSX rendering and styles: only the values the components compute (labels, colours, flags, counts) are modelled.

## Findings

| source | as written | input that shows it | evidently intended | confidence | as-written member | corrected member |
|---|---|---|---|---|---|---|
| server/src/controllers/authController.js:153-157 | `resetPassword` queries with `Op.gt`, but `Op` is never imported, so the lookup throws and every call answers 500 | a token issued by `forgotPassword` and sent back within the hour | a matching token whose expiry is still in the future sets the new password and clears both reset fields | not executed | AuthController.ResetPasswordAsWritten, AuthController.ResetAsWrittenRejectsFreshToken | AuthController.ResetPassword, AuthController.ResetTokenLifetime |
