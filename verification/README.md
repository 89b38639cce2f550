# Personal Finance Manager — a Dafny model of its core

The Personal Finance Manager keeps a ledger in two tables: categories, and
transactions that refer to a category by id. Every transaction is an income or an
expense with a positive amount, a `YYYY-MM-DD` date and a description. This
project models the parts of the program that decide what the ledger holds and what
it reports:

- **Validation** (`Cli.ValidateTransaction`, `Dates`, `Text`). The amount must be
  positive. The date must be accepted by `strptime("%Y-%m-%d")`. The category and
  description must not be blank after `str.strip()`. The type must be `income` or
  `expense`. The checks run in that order, and the first failure is the reason
  reported.
- **The guarded add** (`Cli.AddTransaction`). It validates first. Then the balance
  guard refuses an expense that would push total expenses above total income. Then
  the category is resolved by name, or created with the next rowid. Then one
  transaction row is appended. Any refusal leaves the ledger untouched.
- **The seeding add** (`Seeding.SeedAdd`). It checks the date, then the amount,
  and has no blank-field check and no balance guard. The table's CHECK on the type
  is the only other way it can fail.
- **The filtered view** (`Query`). This is the inner join of transactions with
  categories. Three optional filters (category, date, type) are combined with AND.
  An absent or empty filter constrains nothing.
- **Aggregation** (`Aggregation`). Income, expense and net totals. Group-by-type
  sums. Group-by-category sums, which add incomes and expenses together.
- **Reset** (`Reset`). Delete all transactions, then all categories.
- **The seed generator** (`Seeding.Generate`). It adds `n / 4` incomes under
  "Salary", then `n / 4` expense candidates. A candidate is accepted exactly when it
  fits what is left of a ceiling of 80% of the generated income.

The ledger is an immutable `Store.Ledger`. Both adds are pure functions that
return the new ledger together with an outcome (`Pass`, or `Fail` with the reason).
The reset cannot fail and returns the emptied ledger alone.
`Store.Valid` is the invariant that the database schema and the write paths keep
together:

- category names are unique;
- category ids are unique, and so are transaction ids;
- amounts are positive;
- every transaction's category id exists.

Both add paths preserve it.

The seeding `add_transaction` never compares totals; the generator only respects
its own local ceiling. `Seeding.SeedIgnoresBalance` shows an expense that the
guarded path refuses and the seeding path appends.

## Model

| member | source | states |
|---|---|---|
| Text.StripLeft | finance_manager_cli.py:15-18 | the result is a suffix of the input; every removed character is whitespace; the result is empty or starts with a non-space |
| Text.StripRight | finance_manager_cli.py:15-18 | the result is a prefix of the input; every removed character is whitespace; the result is empty or ends with a non-space |
| Text.Strip | finance_manager_cli.py:15-18 | the result is the input with whitespace removed at both ends only: everything before it and after it is whitespace, and a non-empty result neither starts nor ends with whitespace |
| Text.StripEmptyIffBlank | finance_manager_cli.py:15-18 | `strip()` yields the empty string exactly when every character is whitespace, so `not x.strip()` means "blank" |
| Dates.DaysInMonth | finance_manager.py:6-11 | every month has 28 to 31 days; February has 29 exactly in a Gregorian leap year |
| Dates.YearField | finance_manager.py:8 | `%Y` accepts exactly four decimal digits, and its value lies in 0..9999 |
| Dates.MonthField | finance_manager.py:8 | an accepted `%m` field is one of the ways of writing its month: two zero-padded digits, or one digit for months below 10; the month is 1..12 |
| Dates.DayField | finance_manager.py:8 | an accepted `%d` field is one of the ways of writing its day: two zero-padded digits, or, for days below 10, one digit or a space and a digit; the day is 1..31 |
| Dates.MonthFieldAccepts | finance_manager.py:8 | every padded or unpadded writing of a month 1..12 is accepted with that month's value |
| Dates.DayFieldAccepts | finance_manager.py:8 | every zero-padded, unpadded or space-padded writing of a day 1..31 is accepted with that day's value |
| Dates.IndexOf | finance_manager.py:8 | the first occurrence of a character: the position holds it and no earlier one does; `None` exactly when it is absent |
| Dates.ParseDate | finance_manager.py:6-11 | a parsed date is a real calendar date (years 1..9999, a day the month has), and the text is at most ten characters; which texts parse is stated by `Dates.ParseDateIffWritten` |
| Dates.ParsedIsWritten | finance_manager.py:6-11 | every accepted text is the four-digit year, a dash, a way of writing the month, a dash and a way of writing the day of the date it yields |
| Dates.ShortMonthParses | finance_manager.py:8 | a text with a one-character month field that writes a calendar date parses to that date |
| Dates.LongMonthParses | finance_manager.py:8 | a text with a two-character month field that writes a calendar date parses to that date |
| Dates.ParseDateIffWritten | finance_manager.py:6-11 | parsing yields a date exactly when the text writes that calendar date in one of the accepted padded, unpadded or space-padded forms |
| Dates.ValidateDate | finance_manager.py:6-11 | `validate_date` holds exactly when the text writes some calendar date in an accepted form, and then that date is what it parses to |
| Dates.FormatParseRoundTrip | finance_manager.py:86 | every calendar date rendered as `YYYY-MM-DD` parses back to the same date |
| Dates.StrictFormIsCanonical | finance_manager.py:6-11 | a valid ten-character date string without spaces is exactly the rendering of the date it parses to |
| Dates.LeapDayExample | finance_manager.py:6-11 | `2024-02-29` parses to 29 February 2024 |
| Dates.NonLeapDayExample | finance_manager.py:6-11 | `2023-02-29` matches the pattern but fails the calendar check |
| Dates.MonthThirteenExample | finance_manager.py:6-11 | month 13 is refused |
| Dates.UnpaddedExample | finance_manager.py:6-11 | unpadded month and day fields (`2024-2-9`) are accepted |
| Store.ParseType | setup_database.py:20 | exactly `income` and `expense` name a transaction type, and naming the parsed type gives back the text |
| Store.ParseTypeName | setup_database.py:20 | every type's name parses back to that type |
| Store.FindCategory | finance_manager_cli.py:60-61 | `SELECT id FROM categories WHERE name = ?`: `None` exactly when no row has the name; otherwise a row with that name carries the id |
| Store.CategoryNameOf | finance_manager_cli.py:85 | the join's lookup by id: `None` exactly when no row has the id; otherwise a row with that id carries the name |
| Store.FindCategoryUnique | setup_database.py:9 | with unique names, the lookup of any row's name returns that row's id |
| Store.CategoryNameOfUnique | finance_manager.py:23 | with unique ids, the lookup of any row's id returns that row's name |
| Store.FindCategoryExtend | finance_manager_cli.py:63 | appending category rows does not change the lookup of a name that was already present |
| Store.CategoryNameOfExtend | finance_manager_cli.py:63 | appending category rows does not change the lookup of an id that was already present |
| Store.FindCategoryLast | finance_manager_cli.py:63-64 | after appending a row with a new name, looking that name up finds the new row's id |
| Store.CategoryNameOfLast | finance_manager_cli.py:63-64 | after appending a row with a fresh id, looking that id up finds the new row's name |
| Store.MaxId | finance_manager_cli.py:63-71 | the largest id of a table: no row exceeds it, some row attains it, and it is 0 for an empty table |
| Store.NextId | finance_manager_cli.py:63-71 | the rowid for a new row exceeds every id in use and is 1 for an empty table |
| Store.NextCategoryId | finance_manager_cli.py:63-64 | the rowid for a new category exceeds every existing id and is 1 for an empty table |
| Store.NextTransactionId | finance_manager_cli.py:68-71 | the rowid for a new transaction exceeds every existing id and is 1 for an empty table |
| Store.ResolveOrCreate | finance_manager_cli.py:60-66 | an existing name leaves the table unchanged; a new name appends exactly one row with a fresh id; either way the name now resolves to the returned id |
| Store.ResolveOrCreateIdempotent | finance_manager_cli.py:60-66 | resolving the same name a second time changes nothing and returns the same id |
| Store.AppendCategoryKeepsTable | finance_manager_cli.py:63-64 | a new category with a new name and a fresh id keeps names and ids unique, keeps every existing id, and its id looks up its name |
| Store.ResolveKeepsTable | finance_manager_cli.py:60-66 | resolve-or-create keeps category names and ids unique, loses no existing id, and the returned id looks up the requested name |
| Store.InsertKeepsValid | finance_manager_cli.py:68-71 | inserting a positive-amount transaction with the next rowid and a resolvable category keeps the ledger valid |
| Store.Insert | finance_manager_cli.py:60-71 | exactly one transaction with the given fields and a fresh id is appended, its category resolves both ways, no other row changes, and validity is kept |
| Query.JoinRows | finance_manager_cli.py:82-87 | the inner join yields at most one row per transaction; which rows it holds is stated by `Query.JoinRowsMembers` |
| Query.JoinRowsMembers | finance_manager_cli.py:82-87 | a row is in the inner join exactly when some transaction's category exists and the row is that transaction's fields with the category's name: dangling references yield nothing and no row is invented |
| Query.Join | finance_manager_cli.py:82-87 | the joined rows are exactly the rows of transactions whose category exists; when every reference resolves there is one per transaction and row `i` is transaction `i` with its category's name |
| Query.JoinComplete | finance_manager_cli.py:82-87 | when every reference resolves, the join has one row per transaction, in order, carrying the category's name |
| Query.JoinAppend | finance_manager_cli.py:82-87 | appending a transaction whose category exists appends exactly its row to the join |
| Query.JoinExtendCategories | finance_manager_cli.py:82-87 | adding category rows does not change the join of transactions whose categories already resolve |
| Query.Select | finance_manager_cli.py:88-103 | a row is selected exactly when it was in the input and matches every given, non-empty filter; the selection is no longer than the input |
| Query.SelectConcat | finance_manager_cli.py:88-103 | filtering distributes over concatenation |
| Query.SelectUnconstrained | finance_manager_cli.py:90-100 | when no filter is set, or every one is empty, the view is the whole join |
| Query.SelectTwice | finance_manager_cli.py:90-100 | applying two filters in turn equals applying their conjunction at once |
| Query.SelectConjunctive | finance_manager_cli.py:90-100 | the three filters are conjunctive: filtering by all of them is filtering by each one in turn |
| Query.View | finance_manager_cli.py:78-103 | a row is listed exactly when it matches every given non-empty filter and is the joined row of some transaction; the view is never longer than the join |
| Query.ViewUnfiltered | finance_manager_cli.py:82-103 | an unfiltered view of a valid ledger lists every transaction with its category name |
| Aggregation.Total | finance_manager_cli.py:51-55 | the sum of amounts of one type is non-negative when amounts are positive |
| Aggregation.TotalAppend | finance_manager_cli.py:51-55 | appending a transaction adds its amount to its own type's total only |
| Aggregation.Keep | finance_manager_cli.py:129-130 | `df[df[column] == key]` keeps exactly the rows whose column equals the key |
| Aggregation.KeepTotal | finance_manager_cli.py:129-130 | summing `amount` over the filtered rows gives the group total of that key |
| Aggregation.GroupBy | finance_manager_cli.py:140-145 | `groupby(...).sum()` has a key exactly when the filter `df[df[column] == key]` keeps some row, and the value is the sum of `amount` over the rows it keeps, so the reports' group-by-sum and the summary's filter-then-sum compute the same figures |
| Aggregation.OccurrencesAbsent | finance_manager_cli.py:140-145 | a key not in the key list contributes nothing to a sum over keys |
| Aggregation.OccurrencesOnce | finance_manager_cli.py:140-145 | a key listed once in a duplicate-free list contributes its amount exactly once |
| Aggregation.SumOverKeysSnoc | finance_manager_cli.py:140-145 | one more row adds its amount to the sum over any duplicate-free key list that contains its group |
| Aggregation.GroupTotalsCoverAll | finance_manager_cli.py:140-145 | the per-group totals over a duplicate-free list of all groups add up to the total amount |
| Aggregation.EmptyGroupTotals | finance_manager_cli.py:140-145 | the group totals of no rows are all zero |
| Aggregation.GroupBySumsToTotal | finance_manager_cli.py:140-145 | the values of a group-by add up to the sum of the whole amount column |
| Aggregation.SumValuesIsSumOverKeys | finance_manager_cli.py:140-145 | summing the group-by map over its keys equals summing the per-group totals |
| Aggregation.GroupTotalSnoc | finance_manager_cli.py:140-145 | one more row changes only the total of its own group |
| Aggregation.JoinTotals | finance_manager_cli.py:116-130 | the per-type sums over the joined frame equal the per-type sums over the transactions table when every reference resolves |
| Aggregation.JoinTypeNames | finance_manager_cli.py:116-140 | every row of the joined frame has type `income` or `expense` |
| Aggregation.FinancialSummary | finance_manager_cli.py:127-131 | the net is income minus expenses; when every reference resolves, income and expenses are the per-type totals of the transactions table |
| Aggregation.SummaryAgreesWithTypeReport | finance_manager_cli.py:127-140 | on every ledger, each bar of the by-type report equals the summary's figure for that type, and a type with no bar has a summary figure of 0 |
| Aggregation.TypeReport | finance_manager_cli.py:140 | the by-type report has keys only `income` and `expense`; when every reference resolves, a type is a key exactly when some transaction has it, and its value is that type's total |
| Aggregation.CategoryReport | finance_manager_cli.py:145 | the by-category report has a key exactly for each category name that some transaction is filed under, and its value is the sum of the amounts (income and expense together) of the transactions filed under that name |
| Aggregation.JoinCategoryTotals | finance_manager_cli.py:116-145 | a category's sum over the joined rows equals the sum over the transactions table of the amounts filed under that category name; dangling transactions count in neither |
| Aggregation.SummaryMatchesTotals | finance_manager_cli.py:127-131 | the summary's income and expenses are the per-type totals, and the net is income minus expenses |
| Aggregation.EmptySummary | finance_manager_cli.py:127-131 | an empty ledger reports zero income, zero expenses and zero net |
| Aggregation.TypeReportKeys | finance_manager_cli.py:140 | on a valid ledger, with no side condition: read by its string keys, the by-type report has a bar exactly for each type name present, and each bar is that type's total |
| Aggregation.ByTypeOfJoin | finance_manager_cli.py:116-140 | grouping the join by type gives a key for each type present, exactly, holding that type's total |
| Aggregation.CategoryReportAddsUp | finance_manager_cli.py:145 | the by-category report adds up to income plus expenses, because it mixes both types |
| Cli.ValidateTransaction | finance_manager_cli.py:8-20 | each error is reported exactly when its check fails and every earlier one passes (amount, date, category, description, type); on success the type's name is the given text |
| Cli.OverBudgetFor | finance_manager_cli.py:51-57 | on a ledger whose expenses do not exceed income, with a non-negative amount, the add is allowed exactly when expenses after it would not exceed income after it |
| Cli.AddTransaction | finance_manager_cli.py:44-76 | a refusal leaves the ledger unchanged; it is a validation error exactly when validation fails, and over-budget exactly for a valid expense with expenses + amount > income; a success appends exactly one row and keeps validity |
| Cli.GuardBoundaries | finance_manager_cli.py:57 | an income is never refused; an expense that brings expenses exactly level with income is allowed; on an empty ledger every positive expense is refused |
| Cli.AddUpdatesTotals | finance_manager_cli.py:44-76 | a successful add raises only its own type's total, by its amount |
| Cli.AddKeepsBalanced | finance_manager_cli.py:51-57 | if expenses did not exceed income before a guarded add, they do not after it |
| Cli.SameCategoryReused | finance_manager_cli.py:60-66 | two adds under one category name create at most one category row and both transactions point to it |
| Cli.AddThenView | finance_manager_cli.py:44-103 | after a successful add, the unfiltered view is the old view plus one row showing the new transaction's fields |
| Cli.ScenarioStep | finance_manager_cli.py:44-76 | one successful add in the worked scenario: the new totals and validity |
| Cli.ScenarioSummary | finance_manager_cli.py:127-131 | in the worked scenario, the summary reads income, expenses and their difference |
| Cli.ScenarioRefusal | finance_manager_cli.py:57-58 | in the worked scenario, an expense above the remaining income is refused and the ledger stays as it was |
| Cli.SalaryRentScenario | finance_manager_cli.py:44-131 | on a ledger with no transactions, an income of 1000 and an expense of 300 are accepted, a further expense of 800 is refused as over budget, and the summary reads 1000 / 300 / 700 |
| Seeding.SeedAdd | finance_manager.py:46-72 | a malformed date is refused first and a non-positive amount second; a type the schema refuses fails at the insert; each failure leaves the ledger unchanged, and otherwise exactly one row is appended and validity kept |
| Seeding.ValidateAmount | finance_manager.py:13-14 | the seeding amount check accepts exactly the amounts that interactive validation does not refuse as non-positive |
| Seeding.SeedAddUpdatesTotals | finance_manager.py:46-72 | a successful seeding add raises only its own type's total |
| Seeding.SeedAgreesWithGuardedAdd | finance_manager.py:46-72 | whatever the guarded add accepts, the seeding add accepts with the same resulting ledger |
| Seeding.SeedIgnoresBalance | finance_manager.py:46-72 | an expense the guarded add refuses as over budget is appended by the seeding add, leaving expenses above income |
| Seeding.CountAccepted | finance_manager.py:97-108 | no more candidates are accepted than were drawn |
| Seeding.AcceptedDraws | finance_manager.py:104-106 | the accepted candidates, one per acceptance, each one of the drawn candidates |
| Seeding.AcceptedDrawsSnoc | finance_manager.py:104-108 | deciding one more candidate appends it to the accepted ones exactly when it is accepted |
| Seeding.DecisionsSnoc | finance_manager.py:104-108 | the ceiling decisions extend by one candidate exactly when its own accept-or-skip decision follows the ceiling left |
| Seeding.FiledRowKept | finance_manager.py:58-72 | later appends that keep the earlier rows and every category lookup keep a written row as it was written |
| Seeding.FiledRowNamed | finance_manager.py:58-64 | in a valid ledger, a row filed under a category name has a category id whose name is that name |
| Seeding.SeedStepAppends | finance_manager.py:46-72 | a generated row always passes the seeding checks, because its formatted date parses, and is appended with its own type, keeping validity |
| Seeding.SeedStepTotals | finance_manager.py:91-92 | a generated row moves only its own type's total, by its amount |
| Seeding.SeedStepLookups | finance_manager.py:58-64 | a generated row leaves the lookup of every category name already present unchanged |
| Seeding.AddGeneratedRow | finance_manager.py:91-105 | one generator call is the seeding add of the formatted date and the type's name; it appends exactly one row with the given amount, date, description and type, filed under the named category, keeps earlier rows, lookups and validity, and raises only its own type's total |
| Seeding.SalaryRowsStep | finance_manager.py:84-91 | one more salary row keeps the earlier rows in place and extends the run of rows written for the income draws |
| Seeding.SalaryProgressStep | finance_manager.py:84-92 | one more salary keeps the first loop's invariant |
| Seeding.AddSalaries | finance_manager.py:84-92 | appends, in order, one "Monthly salary" income per draw with the draw's amount and formatted date, filed under "Salary", keeps the rows before, raises only the income total, and returns the draws' sum |
| Seeding.BudgetStep | finance_manager.py:104-108 | deciding one candidate by the ceiling rule extends the decisions; the accepted sum and count grow by its amount and by one exactly when it fits |
| Seeding.ExpenseRowsStep | finance_manager.py:104-106 | one more accepted expense row keeps the earlier rows and lookups, extends the run of rows written for the accepted draws, leaves income alone and adds its amount to expenses |
| Seeding.ExpenseDrawRowsStep | finance_manager.py:104-106 | a row written for one more accepted draw extends the run of rows written for the earlier ones |
| Seeding.ExpenseProgressSkip | finance_manager.py:104-108 | skipping a candidate that does not fit keeps the second loop's invariant |
| Seeding.ExpenseProgressAccept | finance_manager.py:104-106 | accepting a candidate that fits keeps the second loop's invariant |
| Seeding.ExpenseProgressDone | finance_manager.py:97-108 | once every candidate is decided, the second loop's invariant gives its result |
| Seeding.AddExpenses | finance_manager.py:97-108 | each candidate is accepted exactly when it fits what is left of the ceiling, which stays non-negative; the `k`-th appended row is the `k`-th accepted candidate's amount, formatted date, category and description as an expense; rows before are kept and only the expense total grows |
| Seeding.SalaryRowsSurvive | finance_manager.py:84-108 | the salary rows survive the expense loop unchanged, and in a valid ledger each one's category id names "Salary" |
| Seeding.ExpenseRowsNamed | finance_manager.py:97-106 | in a valid ledger, each expense row written for an accepted draw has a category id naming the category drawn for it |
| Seeding.Generate | finance_manager.py:74-108 | `n / 4` "Monthly salary" incomes under "Salary" with the drawn amounts and dates, followed by the accepted expenses, row `k` holding the `k`-th accepted candidate's amount, date, category name and description; accepted expenses total at most 80% of the generated income; validity is kept; expenses stay within income when they were before |
| Seeding.IncomeSumNonNegative | finance_manager.py:85-92 | drawn incomes add up to a non-negative total |
| Reset.ClearTransactions | delete_data.py:8 | the transactions table is emptied, the categories are untouched, and validity is kept |
| Reset.ClearCategories | delete_data.py:9 | the categories table is emptied and the transactions are untouched; every reference still resolves exactly when no transaction is left |
| Reset.ResetLedger | delete_data.py:3-12 | both tables end empty and the result is valid |
| Reset.ResetStatesConsistent | delete_data.py:8-9 | deleting transactions first keeps every intermediate state valid and ends with both tables empty |
| Reset.OtherOrderDangles | delete_data.py:8-9 | deleting categories first would leave a transaction that points to no category |
| Reset.ResetEmptiesQueries | delete_data.py:3-12 | after a reset every view is empty, the summary reads zero, both reports are empty and expenses do not exceed income |
| Reset.ResetRestartsIds | delete_data.py:3-12 | after a reset the next category and the next transaction both receive id 1 |

## Left out

- SQLite itself: connections, commits, `PRAGMA foreign_keys`, indexes and rollback. A write is modelled as all-or-nothing on an immutable ledger.
- Table creation (`setup_database`, `setup_database.py`) is not modelled as an operation. Its constraints appear as the `Store.Valid` invariant (unique names, primary keys, the foreign key) and, for the type CHECK, as the two-valued `Store.TxnType` datatype.
- Store.NextCategoryId and Store.NextTransactionId: these use SQLite's plain-rowid rule (largest id + 1, or 1). They do not model the `AUTOINCREMENT` tables of `setup_database.py`, which never reuse an id after a reset. `Reset.ResetRestartsIds` holds for the plain-rowid schema of `finance_manager.py` only.
- `argparse`, the interactive menu, `input()`, `float()` parsing of typed amounts and all printing: these are user interface only.
- PrettyTable layout. pandas frames are modelled only as the sums they compute, and matplotlib charts are left out.
- Floating point: amounts are exact reals. IEEE rounding, `round(x, 2)`, NaN and infinities are not modelled. In Python a NaN amount passes `amount <= 0`; here no such value exists.
- Query.Select and Query.JoinRows: the view keeps transaction order. SQLite gives no ordering guarantee without `ORDER BY`.
- Dates.ParseDate: `\d` in CPython's `strptime` pattern also matches non-ASCII decimal digits. The model accepts ASCII digits only. Case-insensitive matching does not matter for this all-numeric format.
- Dates.FormatParseRoundTrip: `strftime('%Y')` of a year below 1000 may not be zero-padded on every platform. The model always pads to four digits. The generator only produces years near the current one.
- `random.uniform`, `random.randint`, `random.choice`, `datetime.now()` and `timedelta`: the draws become parameters of `Seeding.Generate`. Their ranges are preconditions (`IncomeDrawInRange`, `ExpenseDrawInRange`), and a draw's date is any calendar date, not one within the last year.
- The module-level calls in `finance_manager.py` (`setup_database()` then `generate_random_transactions(100)`): `Seeding.Generate` is the model for any `n`.
- Aggregation.Total: the guard sums the transactions table directly, while the reports sum the joined frame. `Aggregation.JoinTotals` shows the two agree whenever every reference resolves, which the invariant guarantees.
- Seeding.SeedAdd: a type outside the CHECK raises an `sqlite3.IntegrityError` that nothing catches, so the script stops before its commit. The model has no exceptions: it returns `Fail(TypeConstraint)` with the ledger unchanged and does not model the script ending.
- The seeding add's description is free text. A blank description is stored, as the code stores it.
