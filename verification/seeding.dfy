/** The seeding script: its own date and amount checks, its unguarded add,
    and the random-transaction generator with its local budget ceiling. The
    random draws and the clock are parameters. */
module Seeding {
  import opened Results
  import opened Dates
  import opened Store
  import opened Text
  import opened Aggregation
  import Cli

  /** `validate_amount`. */
  predicate ValidateAmount(amount: real): (b: bool)
    ensures forall date, category, description, typeName ::
      b <==> Cli.ValidateTransaction(amount, date, category, description, typeName) != Err(Cli.NonPositiveAmount)
  {
    amount > 0.0
  }

  /** Why the unguarded add wrote nothing. `TypeConstraint` stands for the
      schema's CHECK on `type` raising an integrity error that nothing
      catches: the commit is never reached, so neither the transaction nor a
      category row inserted just before it is committed. */
  datatype SeedError = MalformedDate | NonPositiveAmount | TypeConstraint

  /** `add_transaction` of the seeding script: the date is checked, then the
      amount; there is no blank-field check and no balance guard. */
  function SeedAdd(l: Ledger, amount: real, date: string, category: string,
                   description: string, typeName: string): (r: Applied<SeedError>)
    ensures r.outcome.Fail? ==> r.ledger == l
    ensures r.outcome == Fail(MalformedDate) <==> !ValidateDate(date)
    ensures r.outcome == Fail(NonPositiveAmount) <==> ValidateDate(date) && amount <= 0.0
    ensures r.outcome == Fail(TypeConstraint) <==>
      ValidateDate(date) && amount > 0.0 && typeName != "income" && typeName != "expense"
    ensures r.outcome.Pass? && Valid(l) ==>
      && AppendedOne(l, r.ledger, amount, date, category, description, ParseType(typeName).value)
      && Valid(r.ledger)
  {
    if !ValidateDate(date) then Applied(l, Fail(MalformedDate))
    else if !ValidateAmount(amount) then Applied(l, Fail(NonPositiveAmount))
    else match ParseType(typeName)
      case None => Applied(l, Fail(TypeConstraint))
      case Some(kind) => Applied(Insert(l, amount, date, category, description, kind), Pass)
  }

  /** A successful unguarded add moves only the total of its own type. */
  lemma SeedAddUpdatesTotals(l: Ledger, amount: real, date: string, category: string,
                             description: string, typeName: string, kind: TxnType)
    requires Valid(l)
    requires SeedAdd(l, amount, date, category, description, typeName).outcome.Pass?
    ensures Total(SeedAdd(l, amount, date, category, description, typeName).ledger.transactions, kind) ==
            Total(l.transactions, kind) + (if TypeName(kind) == typeName then amount else 0.0)
  {
    var r := SeedAdd(l, amount, date, category, description, typeName);
    var t := r.ledger.transactions[|l.transactions|];
    assert r.ledger.transactions == l.transactions + [t];
    TotalAppend(l.transactions, t, kind);
  }

  /** The category names the generator draws expenses from. */
  const ExpenseCategories: seq<string> :=
    ["Salary", "Rent", "Groceries", "Entertainment", "Utilities", "Dining Out", "Health", "Transport"]

  /** The descriptions the generator draws expenses from. */
  const ExpenseDescriptions: seq<string> :=
    ["Monthly income", "House rent", "Grocery shopping", "Movie night", "Electricity bill", "Dinner",
     "Medical expenses", "Bus fare"]

  /** One income draw: an amount from `uniform(500, 2000)` and a date. */
  datatype IncomeDraw = IncomeDraw(amount: real, date: Date)

  /** One expense candidate: amount from `uniform(10, 500)`, date, and a
      category and description from the fixed lists. */
  datatype ExpenseDraw = ExpenseDraw(amount: real, date: Date, category: string, description: string)

  predicate IncomeDrawInRange(d: IncomeDraw) {
    500.0 <= d.amount <= 2000.0 && IsCalendarDate(d.date)
  }

  predicate ExpenseDrawInRange(d: ExpenseDraw) {
    && 10.0 <= d.amount <= 500.0
    && IsCalendarDate(d.date)
    && d.category in ExpenseCategories
    && d.description in ExpenseDescriptions
  }

  function IncomeSum(draws: seq<IncomeDraw>): real {
    if draws == [] then 0.0 else IncomeSum(draws[..|draws| - 1]) + draws[|draws| - 1].amount
  }

  /** The total of the candidates marked as accepted. */
  function AcceptedSum(draws: seq<ExpenseDraw>, accepted: seq<bool>): real
    requires |draws| == |accepted|
  {
    if draws == [] then 0.0
    else
      AcceptedSum(draws[..|draws| - 1], accepted[..|accepted| - 1]) +
        (if accepted[|accepted| - 1] then draws[|draws| - 1].amount else 0.0)
  }

  function CountAccepted(accepted: seq<bool>): (c: nat)
    ensures c <= |accepted|
  {
    if accepted == [] then 0
    else CountAccepted(accepted[..|accepted| - 1]) + (if accepted[|accepted| - 1] then 1 else 0)
  }

  /** The candidates marked as accepted, in the order they were drawn. */
  function AcceptedDraws(draws: seq<ExpenseDraw>, accepted: seq<bool>): (r: seq<ExpenseDraw>)
    requires |draws| == |accepted|
    ensures |r| == CountAccepted(accepted)
    ensures forall d :: d in r ==> d in draws
  {
    if draws == [] then []
    else
      var init := AcceptedDraws(draws[..|draws| - 1], accepted[..|accepted| - 1]);
      assert forall d :: d in draws[..|draws| - 1] ==> d in draws;
      if accepted[|accepted| - 1] then init + [draws[|draws| - 1]] else init
  }

  /** The generator's ceiling: 80% of the income it generated. */
  function Ceiling(totalIncome: real): real {
    0.8 * totalIncome
  }

  /** Every accepted candidate was accepted because it fitted what was left
      of the ceiling after the candidates accepted before it, and every
      rejected one because it did not. */
  predicate CeilingDecisions(draws: seq<ExpenseDraw>, accepted: seq<bool>, ceiling: real)
    requires |draws| == |accepted|
  {
    forall k :: 0 <= k < |accepted| ==>
      (accepted[k] <==> ceiling - AcceptedSum(draws[..k], accepted[..k]) >= draws[k].amount)
  }

  lemma AcceptedSumSnoc(draws: seq<ExpenseDraw>, accepted: seq<bool>, d: ExpenseDraw, b: bool)
    requires |draws| == |accepted|
    ensures AcceptedSum(draws + [d], accepted + [b]) == AcceptedSum(draws, accepted) + (if b then d.amount else 0.0)
  {
    assert (draws + [d])[..|draws|] == draws;
    assert (accepted + [b])[..|accepted|] == accepted;
  }

  lemma IncomeSumSnoc(draws: seq<IncomeDraw>, d: IncomeDraw)
    ensures IncomeSum(draws + [d]) == IncomeSum(draws) + d.amount
  {
    assert (draws + [d])[..|draws|] == draws;
  }

  lemma AcceptedDrawsSnoc(draws: seq<ExpenseDraw>, accepted: seq<bool>, d: ExpenseDraw, b: bool)
    requires |draws| == |accepted|
    ensures AcceptedDraws(draws + [d], accepted + [b]) ==
      if b then AcceptedDraws(draws, accepted) + [d] else AcceptedDraws(draws, accepted)
  {
    assert (draws + [d])[..|draws|] == draws;
    assert (accepted + [b])[..|accepted|] == accepted;
  }

  lemma CountAcceptedSnoc(accepted: seq<bool>, b: bool)
    ensures CountAccepted(accepted + [b]) == CountAccepted(accepted) + (if b then 1 else 0)
  {
    assert (accepted + [b])[..|accepted|] == accepted;
  }

  lemma {:induction false} DecisionsSnoc(draws: seq<ExpenseDraw>, accepted: seq<bool>, j: nat, ceiling: real, b: bool)
    requires j < |draws| && |accepted| == j
    requires CeilingDecisions(draws[..j], accepted, ceiling)
    requires b <==> ceiling - AcceptedSum(draws[..j], accepted) >= draws[j].amount
    ensures CeilingDecisions(draws[..j + 1], accepted + [b], ceiling)
  {
    var ds, bs := draws[..j + 1], accepted + [b];
    forall k | 0 <= k < |bs|
      ensures bs[k] <==> ceiling - AcceptedSum(ds[..k], bs[..k]) >= ds[k].amount
    {
      if k < j {
        assert ds[..k] == draws[..j][..k];
        assert bs[..k] == accepted[..k];
        assert ds[k] == draws[..j][k];
      } else {
        assert ds[..k] == draws[..j];
        assert bs[..k] == accepted;
      }
    }
  }

  /** Appending category rows keeps the lookup of a name already present. */
  lemma LookupKept(cats: seq<Category>, cats': seq<Category>, name: string)
    requires |cats| <= |cats'| && cats'[..|cats|] == cats
    requires HasCategoryName(cats, name)
    ensures FindCategory(cats', name) == FindCategory(cats, name)
  {
    assert cats' == cats + cats'[|cats|..];
    FindCategoryExtend(cats, cats'[|cats|..], name);
  }

  /** Lookups of names already present are the same in both tables. */
  ghost predicate LookupsKept(cats: seq<Category>, cats': seq<Category>) {
    forall name :: HasCategoryName(cats, name) ==> FindCategory(cats', name) == FindCategory(cats, name)
  }

  /** Unchanged lookups compose: what two steps each keep, the pair keeps. */
  lemma LookupsKeptTrans(a: seq<Category>, b: seq<Category>, c: seq<Category>)
    requires LookupsKept(a, b) && LookupsKept(b, c)
    ensures LookupsKept(a, c)
  {
    forall name | HasCategoryName(a, name)
      ensures FindCategory(c, name) == FindCategory(a, name)
    {
      assert HasCategoryName(b, name);
    }
  }

  /** Row `i` of `l` is what a generator call wrote for these fields: the
      amount, the formatted date, the description and the type, filed under
      the category named `category`. */
  predicate FiledRow(l: Ledger, i: int, amount: real, date: Date, category: string,
                     description: string, kind: TxnType)
  {
    && 0 <= i < |l.transactions| && IsCalendarDate(date)
    && var t := l.transactions[i];
    && t.amount == amount && t.date == FormatDate(date) && t.description == description && t.kind == kind
    && FindCategory(l.categories, category) == Some(t.categoryId)
  }

  /** Later writes that keep earlier rows and name lookups keep a filed row. */
  lemma FiledRowKept(l: Ledger, next: Ledger, i: int, amount: real, date: Date, category: string,
                     description: string, kind: TxnType)
    requires FiledRow(l, i, amount, date, category, description, kind)
    requires |l.transactions| <= |next.transactions| && next.transactions[..|l.transactions|] == l.transactions
    requires LookupsKept(l.categories, next.categories)
    ensures FiledRow(next, i, amount, date, category, description, kind)
  {
    assert next.transactions[..|l.transactions|][i] == next.transactions[i];
    assert HasCategoryName(l.categories, category);
  }

  /** In a valid ledger, a filed row's category id names its category. */
  lemma FiledRowNamed(l: Ledger, i: int, amount: real, date: Date, category: string,
                      description: string, kind: TxnType)
    requires Valid(l) && FiledRow(l, i, amount, date, category, description, kind)
    ensures CategoryNameOf(l.categories, l.transactions[i].categoryId) == Some(category)
  {
    var j :| 0 <= j < |l.categories| && l.categories[j] == Category(l.transactions[i].categoryId, category);
    CategoryNameOfUnique(l.categories, j);
  }

  /** Rows `base` onwards are the income draws, in order, each a "Monthly
      salary" income filed under "Salary". */
  predicate RowsFromIncomes(l: Ledger, base: int, incomes: seq<IncomeDraw>) {
    forall k :: 0 <= k < |incomes| ==>
      FiledRow(l, base + k, incomes[k].amount, incomes[k].date, "Salary", "Monthly salary", Income)
  }

  /** Rows `base` onwards are the given expense draws, in order, each an
      expense with the draw's amount, date, category and description. */
  predicate RowsFromExpenses(l: Ledger, base: int, draws: seq<ExpenseDraw>) {
    forall k :: 0 <= k < |draws| ==>
      FiledRow(l, base + k, draws[k].amount, draws[k].date, draws[k].category, draws[k].description, Expense)
  }

  /** A generated row always passes the unguarded add's checks: its
      formatted date parses and its amount is positive. So it is appended, in
      its own type, and validity is kept. */
  lemma SeedStepAppends(l: Ledger, amount: real, d: Date, category: string,
                        description: string, kind: TxnType)
    requires Valid(l) && amount > 0.0 && IsCalendarDate(d)
    ensures var r := SeedAdd(l, amount, FormatDate(d), category, description, TypeName(kind));
      && r.outcome == Pass
      && Valid(r.ledger)
      && AppendedOne(l, r.ledger, amount, FormatDate(d), category, description, kind)
  {
    FormatParseRoundTrip(d);
    ParseTypeName(kind);
  }

  /** A generated row moves only its own type's total. */
  lemma SeedStepTotals(l: Ledger, amount: real, d: Date, category: string,
                       description: string, kind: TxnType)
    requires Valid(l) && amount > 0.0 && IsCalendarDate(d)
    ensures var r := SeedAdd(l, amount, FormatDate(d), category, description, TypeName(kind));
      && Total(r.ledger.transactions, Income) == Total(l.transactions, Income) + (if kind == Income then amount else 0.0)
      && Total(r.ledger.transactions, Expense) == Total(l.transactions, Expense) + (if kind == Expense then amount else 0.0)
  {
    var date := FormatDate(d);
    SeedStepAppends(l, amount, d, category, description, kind);
    SeedAddUpdatesTotals(l, amount, date, category, description, TypeName(kind), Income);
    SeedAddUpdatesTotals(l, amount, date, category, description, TypeName(kind), Expense);
  }

  /** A generated row leaves the lookup of every name already present as it was. */
  lemma SeedStepLookups(l: Ledger, amount: real, d: Date, category: string,
                        description: string, kind: TxnType)
    requires Valid(l) && amount > 0.0 && IsCalendarDate(d)
    ensures LookupsKept(l.categories, SeedAdd(l, amount, FormatDate(d), category, description, TypeName(kind)).ledger.categories)
  {
    var r := SeedAdd(l, amount, FormatDate(d), category, description, TypeName(kind));
    SeedStepAppends(l, amount, d, category, description, kind);
    forall name | HasCategoryName(l.categories, name)
      ensures FindCategory(r.ledger.categories, name) == FindCategory(l.categories, name)
    {
      LookupKept(l.categories, r.ledger.categories, name);
    }
  }

  /** `next` is `l` with one row appended for the given fields: the rows
      before it are kept, the category lookups are kept, and the total of
      the row's type grows by its amount. */
  ghost predicate WroteRow(l: Ledger, next: Ledger, amount: real, d: Date, category: string,
                           description: string, kind: TxnType) {
    && |next.transactions| == |l.transactions| + 1
    && next.transactions[..|l.transactions|] == l.transactions
    && FiledRow(next, |l.transactions|, amount, d, category, description, kind)
    && LookupsKept(l.categories, next.categories)
    && Total(next.transactions, Income) == Total(l.transactions, Income) + (if kind == Income then amount else 0.0)
    && Total(next.transactions, Expense) == Total(l.transactions, Expense) + (if kind == Expense then amount else 0.0)
  }

  /** One `add_transaction` call of the generator, for a generated row. */
  method AddGeneratedRow(l: Ledger, amount: real, d: Date, category: string,
                         description: string, kind: TxnType) returns (next: Ledger)
    requires Valid(l) && amount > 0.0 && IsCalendarDate(d)
    ensures next == SeedAdd(l, amount, FormatDate(d), category, description, TypeName(kind)).ledger
    ensures Valid(next)
    ensures WroteRow(l, next, amount, d, category, description, kind)
  {
    SeedStepAppends(l, amount, d, category, description, kind);
    SeedStepTotals(l, amount, d, category, description, kind);
    SeedStepLookups(l, amount, d, category, description, kind);
    next := SeedAdd(l, amount, FormatDate(d), category, description, TypeName(kind)).ledger;
  }

  /** What the first loop keeps after `i` draws: `l'` is `l` plus one salary
      row per draw, and `totalIncome` is their sum. */
  ghost predicate SalaryProgress(l: Ledger, l': Ledger, incomes: seq<IncomeDraw>, i: nat, totalIncome: real) {
    && i <= |incomes|
    && totalIncome == IncomeSum(incomes[..i])
    && |l'.transactions| == |l.transactions| + i
    && l'.transactions[..|l.transactions|] == l.transactions
    && RowsFromIncomes(l', |l.transactions|, incomes[..i])
    && Total(l'.transactions, Income) == Total(l.transactions, Income) + totalIncome
    && Total(l'.transactions, Expense) == Total(l.transactions, Expense)
  }

  /** Appending one row to a table that extends `base` keeps `base` as a
      prefix and leaves every row after it in place. */
  lemma PrefixStep(base: seq<Transaction>, mid: seq<Transaction>, next: seq<Transaction>)
    requires |base| <= |mid| && mid[..|base|] == base
    requires |next| == |mid| + 1 && next[..|mid|] == mid
    ensures next[..|base|] == base
    ensures forall k :: |base| <= k < |mid| ==> next[k] == mid[k]
  {
    assert next[..|base|] == next[..|mid|][..|base|];
    forall k | |base| <= k < |mid|
      ensures next[k] == mid[k]
    {
      assert next[..|mid|][k] == next[k];
    }
  }

  /** One more salary row, written for draw `d`, extends the rows written
      for the earlier draws and keeps the rows before them. */
  lemma SalaryRowsStep(l: Ledger, l': Ledger, next: Ledger, done: seq<IncomeDraw>, d: IncomeDraw)
    requires |l'.transactions| == |l.transactions| + |done|
    requires l'.transactions[..|l.transactions|] == l.transactions
    requires RowsFromIncomes(l', |l.transactions|, done)
    requires WroteRow(l', next, d.amount, d.date, "Salary", "Monthly salary", Income)
    ensures next.transactions[..|l.transactions|] == l.transactions
    ensures RowsFromIncomes(next, |l.transactions|, done + [d])
  {
    PrefixStep(l.transactions, l'.transactions, next.transactions);
    var base, ds := |l.transactions|, done + [d];
    forall k | 0 <= k < |ds|
      ensures FiledRow(next, base + k, ds[k].amount, ds[k].date, "Salary", "Monthly salary", Income)
    {
      if k < |done| {
        assert ds[k] == done[k];
        FiledRowKept(l', next, base + k, done[k].amount, done[k].date, "Salary", "Monthly salary", Income);
      }
    }
  }

  lemma SalaryProgressStep(l: Ledger, l': Ledger, next: Ledger, incomes: seq<IncomeDraw>, i: nat, totalIncome: real)
    requires SalaryProgress(l, l', incomes, i, totalIncome) && i < |incomes|
    requires WroteRow(l', next, incomes[i].amount, incomes[i].date, "Salary", "Monthly salary", Income)
    ensures SalaryProgress(l, next, incomes, i + 1, totalIncome + incomes[i].amount)
  {
    assert incomes[..i + 1] == incomes[..i] + [incomes[i]];
    SalaryRowsStep(l, l', next, incomes[..i], incomes[i]);
    assert totalIncome + incomes[i].amount == IncomeSum(incomes[..i + 1]) by {
      IncomeSumSnoc(incomes[..i], incomes[i]);
    }
  }

  /** The first loop of the generator: one salary income per draw, and the
      running income total. */
  method AddSalaries(l: Ledger, incomes: seq<IncomeDraw>) returns (l': Ledger, totalIncome: real)
    requires Valid(l)
    requires forall i :: 0 <= i < |incomes| ==> IncomeDrawInRange(incomes[i])
    ensures Valid(l')
    ensures totalIncome == IncomeSum(incomes)
    ensures |l'.transactions| == |l.transactions| + |incomes|
    ensures l'.transactions[..|l.transactions|] == l.transactions
    ensures RowsFromIncomes(l', |l.transactions|, incomes)
    ensures Total(l'.transactions, Income) == Total(l.transactions, Income) + totalIncome
    ensures Total(l'.transactions, Expense) == Total(l.transactions, Expense)
  {
    l' := l;
    totalIncome := 0.0;
    var i := 0;
    while i < |incomes|
      invariant Valid(l')
      invariant SalaryProgress(l, l', incomes, i, totalIncome)
    {
      var next := AddGeneratedRow(l', incomes[i].amount, incomes[i].date, "Salary", "Monthly salary", Income);
      SalaryProgressStep(l, l', next, incomes, i, totalIncome);
      l' := next;
      totalIncome := totalIncome + incomes[i].amount;
      i := i + 1;
    }
    assert incomes[..i] == incomes;
  }

  /** The budget half of the second loop's invariant: `j` decisions taken,
      each by the ceiling rule, and `ceiling` is what is left of `limit`. */
  predicate BudgetProgress(expenses: seq<ExpenseDraw>, limit: real, j: nat, ceiling: real, accepted: seq<bool>) {
    && j <= |expenses|
    && |accepted| == j
    && ceiling == limit - AcceptedSum(expenses[..j], accepted)
    && ceiling >= 0.0
    && CeilingDecisions(expenses[..j], accepted, limit)
  }

  /** The ledger half: `l'` is `l` plus one expense row per draw in `rows`,
      worth `spent` together, with earlier lookups and the income total untouched. */
  ghost predicate ExpenseRows(l: Ledger, l': Ledger, rows: seq<ExpenseDraw>, spent: real) {
    && |l'.transactions| == |l.transactions| + |rows|
    && l'.transactions[..|l.transactions|] == l.transactions
    && RowsFromExpenses(l', |l.transactions|, rows)
    && LookupsKept(l.categories, l'.categories)
    && Total(l'.transactions, Income) == Total(l.transactions, Income)
    && Total(l'.transactions, Expense) == Total(l.transactions, Expense) + spent
  }

  /** What the second loop keeps after `j` candidates. */
  ghost predicate ExpenseProgress(l: Ledger, l': Ledger, expenses: seq<ExpenseDraw>, limit: real,
                                  j: nat, ceiling: real, accepted: seq<bool>) {
    && BudgetProgress(expenses, limit, j, ceiling, accepted)
    && ExpenseRows(l, l', AcceptedDraws(expenses[..j], accepted), AcceptedSum(expenses[..j], accepted))
  }

  /** Deciding candidate `j` by the ceiling rule extends the budget invariant;
      the accepted sum and count grow exactly when it is accepted. */
  lemma BudgetStep(expenses: seq<ExpenseDraw>, limit: real, j: nat, ceiling: real, accepted: seq<bool>)
    requires BudgetProgress(expenses, limit, j, ceiling, accepted) && j < |expenses|
    ensures var fits := ceiling >= expenses[j].amount;
      && BudgetProgress(expenses, limit, j + 1, if fits then ceiling - expenses[j].amount else ceiling, accepted + [fits])
      && AcceptedSum(expenses[..j + 1], accepted + [fits]) ==
           AcceptedSum(expenses[..j], accepted) + (if fits then expenses[j].amount else 0.0)
      && CountAccepted(accepted + [fits]) == CountAccepted(accepted) + (if fits then 1 else 0)
      && AcceptedDraws(expenses[..j + 1], accepted + [fits]) ==
           if fits then AcceptedDraws(expenses[..j], accepted) + [expenses[j]] else AcceptedDraws(expenses[..j], accepted)
  {
    var fits := ceiling >= expenses[j].amount;
    assert expenses[..j + 1] == expenses[..j] + [expenses[j]];
    DecisionsSnoc(expenses, accepted, j, limit, fits);
    AcceptedSumSnoc(expenses[..j], accepted, expenses[j], fits);
    CountAcceptedSnoc(accepted, fits);
    AcceptedDrawsSnoc(expenses[..j], accepted, expenses[j], fits);
  }

  /** One more accepted expense row extends the ledger half of the invariant. */
  lemma ExpenseRowsStep(l: Ledger, l': Ledger, next: Ledger, rows: seq<ExpenseDraw>, spent: real, d: ExpenseDraw)
    requires ExpenseRows(l, l', rows, spent)
    requires WroteRow(l', next, d.amount, d.date, d.category, d.description, Expense)
    ensures ExpenseRows(l, next, rows + [d], spent + d.amount)
  {
    PrefixStep(l.transactions, l'.transactions, next.transactions);
    LookupsKeptTrans(l.categories, l'.categories, next.categories);
    ExpenseDrawRowsStep(l', next, |l.transactions|, rows, d);
  }

  /** One more row, written for draw `d`, extends the rows written for the
      earlier draws. */
  lemma ExpenseDrawRowsStep(l': Ledger, next: Ledger, base: nat, rows: seq<ExpenseDraw>, d: ExpenseDraw)
    requires RowsFromExpenses(l', base, rows) && |l'.transactions| == base + |rows|
    requires |next.transactions| == |l'.transactions| + 1
    requires next.transactions[..|l'.transactions|] == l'.transactions
    requires FiledRow(next, |l'.transactions|, d.amount, d.date, d.category, d.description, Expense)
    requires LookupsKept(l'.categories, next.categories)
    ensures RowsFromExpenses(next, base, rows + [d])
  {
    var ds := rows + [d];
    forall k | 0 <= k < |ds|
      ensures FiledRow(next, base + k, ds[k].amount, ds[k].date, ds[k].category, ds[k].description, Expense)
    {
      if k < |rows| {
        assert ds[k] == rows[k];
        FiledRowKept(l', next, base + k, rows[k].amount, rows[k].date, rows[k].category, rows[k].description, Expense);
      }
    }
  }

  lemma ExpenseProgressSkip(l: Ledger, l': Ledger, expenses: seq<ExpenseDraw>, limit: real,
                            j: nat, ceiling: real, accepted: seq<bool>)
    requires ExpenseProgress(l, l', expenses, limit, j, ceiling, accepted) && j < |expenses|
    requires ceiling < expenses[j].amount
    ensures ExpenseProgress(l, l', expenses, limit, j + 1, ceiling, accepted + [false])
  {
    BudgetStep(expenses, limit, j, ceiling, accepted);
  }

  lemma ExpenseProgressAccept(l: Ledger, l': Ledger, next: Ledger, expenses: seq<ExpenseDraw>, limit: real,
                              j: nat, ceiling: real, accepted: seq<bool>)
    requires ExpenseProgress(l, l', expenses, limit, j, ceiling, accepted) && j < |expenses|
    requires ceiling >= expenses[j].amount
    requires WroteRow(l', next, expenses[j].amount, expenses[j].date, expenses[j].category,
                      expenses[j].description, Expense)
    ensures ExpenseProgress(l, next, expenses, limit, j + 1, ceiling - expenses[j].amount, accepted + [true])
  {
    BudgetStep(expenses, limit, j, ceiling, accepted);
    ExpenseRowsStep(l, l', next, AcceptedDraws(expenses[..j], accepted), AcceptedSum(expenses[..j], accepted), expenses[j]);
  }

  /** Once every candidate is decided, the invariant is the loop's result. */
  lemma ExpenseProgressDone(l: Ledger, l': Ledger, expenses: seq<ExpenseDraw>, limit: real,
                            ceiling: real, accepted: seq<bool>)
    requires ExpenseProgress(l, l', expenses, limit, |expenses|, ceiling, accepted)
    ensures |accepted| == |expenses|
    ensures CeilingDecisions(expenses, accepted, limit)
    ensures ceiling == limit - AcceptedSum(expenses, accepted)
    ensures ceiling >= 0.0
    ensures |l'.transactions| == |l.transactions| + CountAccepted(accepted)
    ensures l'.transactions[..|l.transactions|] == l.transactions
    ensures RowsFromExpenses(l', |l.transactions|, AcceptedDraws(expenses, accepted))
    ensures LookupsKept(l.categories, l'.categories)
    ensures Total(l'.transactions, Income) == Total(l.transactions, Income)
    ensures Total(l'.transactions, Expense) == Total(l.transactions, Expense) + AcceptedSum(expenses, accepted)
  {
    assert expenses[..|expenses|] == expenses;
  }

  /** The second loop of the generator: each candidate is added only if it
      fits what is left of the ceiling, which then shrinks by its amount. */
  method AddExpenses(l: Ledger, expenses: seq<ExpenseDraw>, limit: real)
    returns (l': Ledger, ceiling: real, accepted: seq<bool>)
    requires Valid(l) && limit >= 0.0
    requires forall i :: 0 <= i < |expenses| ==> ExpenseDrawInRange(expenses[i])
    ensures Valid(l')
    ensures |accepted| == |expenses|
    ensures CeilingDecisions(expenses, accepted, limit)
    ensures ceiling == limit - AcceptedSum(expenses, accepted)
    ensures ceiling >= 0.0
    ensures |l'.transactions| == |l.transactions| + CountAccepted(accepted)
    ensures l'.transactions[..|l.transactions|] == l.transactions
    ensures RowsFromExpenses(l', |l.transactions|, AcceptedDraws(expenses, accepted))
    ensures LookupsKept(l.categories, l'.categories)
    ensures Total(l'.transactions, Income) == Total(l.transactions, Income)
    ensures Total(l'.transactions, Expense) == Total(l.transactions, Expense) + AcceptedSum(expenses, accepted)
  {
    l' := l;
    ceiling := limit;
    accepted := [];
    var j := 0;
    while j < |expenses|
      invariant Valid(l')
      invariant ExpenseProgress(l, l', expenses, limit, j, ceiling, accepted)
    {
      if ceiling >= expenses[j].amount {
        var next := AddGeneratedRow(l', expenses[j].amount, expenses[j].date, expenses[j].category,
                                    expenses[j].description, Expense);
        ExpenseProgressAccept(l, l', next, expenses, limit, j, ceiling, accepted);
        l' := next;
        ceiling := ceiling - expenses[j].amount;
        accepted := accepted + [true];
      } else {
        ExpenseProgressSkip(l, l', expenses, limit, j, ceiling, accepted);
        accepted := accepted + [false];
      }
      j := j + 1;
    }
    ExpenseProgressDone(l, l', expenses, limit, ceiling, accepted);
  }

  /** The salary rows survive the expense loop, and in a valid result each
      one's category id names "Salary". */
  lemma SalaryRowsSurvive(l: Ledger, mid: Ledger, l': Ledger, incomes: seq<IncomeDraw>)
    requires Valid(l')
    requires |mid.transactions| == |l.transactions| + |incomes| <= |l'.transactions|
    requires mid.transactions[..|l.transactions|] == l.transactions
    requires RowsFromIncomes(mid, |l.transactions|, incomes)
    requires l'.transactions[..|mid.transactions|] == mid.transactions
    requires LookupsKept(mid.categories, l'.categories)
    ensures l'.transactions[..|l.transactions|] == l.transactions
    ensures RowsFromIncomes(l', |l.transactions|, incomes)
    ensures forall i :: |l.transactions| <= i < |l.transactions| + |incomes| ==>
      CategoryNameOf(l'.categories, l'.transactions[i].categoryId) == Some("Salary")
  {
    var base, m := |l.transactions|, |mid.transactions|;
    assert l'.transactions[..base] == l'.transactions[..m][..base];
    forall k | 0 <= k < |incomes|
      ensures FiledRow(l', base + k, incomes[k].amount, incomes[k].date, "Salary", "Monthly salary", Income)
    {
      FiledRowKept(mid, l', base + k, incomes[k].amount, incomes[k].date, "Salary", "Monthly salary", Income);
    }
    forall i | base <= i < base + |incomes|
      ensures CategoryNameOf(l'.categories, l'.transactions[i].categoryId) == Some("Salary")
    {
      var k := i - base;
      FiledRowNamed(l', i, incomes[k].amount, incomes[k].date, "Salary", "Monthly salary", Income);
    }
  }

  /** The expense rows follow the salary rows, and in a valid result each
      one's category id names the category drawn for it. */
  lemma ExpenseRowsNamed(l': Ledger, m: nat, base: nat, count: nat, drawn: seq<ExpenseDraw>)
    requires Valid(l') && m == base + count && m + |drawn| <= |l'.transactions|
    requires RowsFromExpenses(l', m, drawn)
    ensures RowsFromExpenses(l', base + count, drawn)
    ensures forall k :: 0 <= k < |drawn| ==>
      CategoryNameOf(l'.categories, l'.transactions[base + count + k].categoryId) == Some(drawn[k].category)
  {
    forall k | 0 <= k < |drawn|
      ensures FiledRow(l', base + count + k, drawn[k].amount, drawn[k].date, drawn[k].category,
                       drawn[k].description, Expense)
      ensures CategoryNameOf(l'.categories, l'.transactions[base + count + k].categoryId) == Some(drawn[k].category)
    {
      FiledRowNamed(l', m + k, drawn[k].amount, drawn[k].date, drawn[k].category, drawn[k].description, Expense);
    }
  }

  /** `generate_random_transactions(n)`: first `n / 4` salary incomes, then
      `n / 4` expense candidates under a ceiling of 80% of the generated
      income. Returns the ledger, the generated income, the ceiling left over
      and which candidates were accepted. */
  method Generate(l: Ledger, n: nat, incomes: seq<IncomeDraw>, expenses: seq<ExpenseDraw>)
    returns (l': Ledger, totalIncome: real, ceiling: real, accepted: seq<bool>)
    requires Valid(l)
    requires |incomes| == n / 4 && |expenses| == n / 4
    requires forall i :: 0 <= i < |incomes| ==> IncomeDrawInRange(incomes[i])
    requires forall i :: 0 <= i < |expenses| ==> ExpenseDrawInRange(expenses[i])
    ensures Valid(l')
    ensures totalIncome == IncomeSum(incomes)
    ensures |accepted| == n / 4 && CountAccepted(accepted) <= n / 4
    ensures CeilingDecisions(expenses, accepted, Ceiling(totalIncome))
    ensures ceiling == Ceiling(totalIncome) - AcceptedSum(expenses, accepted)
    ensures ceiling >= 0.0
    ensures AcceptedSum(expenses, accepted) <= Ceiling(totalIncome)
    ensures |l'.transactions| == |l.transactions| + n / 4 + CountAccepted(accepted)
    ensures l'.transactions[..|l.transactions|] == l.transactions
    ensures RowsFromIncomes(l', |l.transactions|, incomes)
    ensures RowsFromExpenses(l', |l.transactions| + |incomes|, AcceptedDraws(expenses, accepted))
    ensures forall i :: |l.transactions| <= i < |l.transactions| + |incomes| ==>
      CategoryNameOf(l'.categories, l'.transactions[i].categoryId) == Some("Salary")
    ensures forall k :: 0 <= k < |AcceptedDraws(expenses, accepted)| ==>
      CategoryNameOf(l'.categories, l'.transactions[|l.transactions| + |incomes| + k].categoryId) ==
        Some(AcceptedDraws(expenses, accepted)[k].category)
    ensures Total(l'.transactions, Income) == Total(l.transactions, Income) + totalIncome
    ensures Total(l'.transactions, Expense) == Total(l.transactions, Expense) + AcceptedSum(expenses, accepted)
    ensures Balanced(l) ==> Balanced(l')
  {
    var mid;
    mid, totalIncome := AddSalaries(l, incomes);
    IncomeSumNonNegative(incomes);
    l', ceiling, accepted := AddExpenses(mid, expenses, Ceiling(totalIncome));
    SalaryRowsSurvive(l, mid, l', incomes);
    ExpenseRowsNamed(l', |mid.transactions|, |l.transactions|, |incomes|, AcceptedDraws(expenses, accepted));
  }

  lemma {:induction false} IncomeSumNonNegative(draws: seq<IncomeDraw>)
    requires forall i :: 0 <= i < |draws| ==> IncomeDrawInRange(draws[i])
    ensures IncomeSum(draws) >= 0.0
  {
    if draws != [] {
      IncomeSumNonNegative(draws[..|draws| - 1]);
    }
  }

  /** Whatever the guarded path accepts, the seeding path accepts too, and it
      writes the same ledger: both share resolve-or-create and insert. */
  lemma SeedAgreesWithGuardedAdd(l: Ledger, amount: real, date: string, category: string,
                                 description: string, typeName: string)
    requires Cli.AddTransaction(l, amount, date, category, description, typeName).outcome.Pass?
    ensures SeedAdd(l, amount, date, category, description, typeName).outcome == Pass
    ensures SeedAdd(l, amount, date, category, description, typeName).ledger ==
            Cli.AddTransaction(l, amount, date, category, description, typeName).ledger
  {
  }

  /** The seeding path has no balance guard: an expense the guarded path
      refuses as over budget is still appended here. */
  lemma SeedIgnoresBalance(l: Ledger, amount: real, date: string, category: string, description: string)
    requires Valid(l) && ValidateDate(date) && amount > 0.0
    requires !IsBlank(category) && !IsBlank(description)
    requires Total(l.transactions, Expense) + amount > Total(l.transactions, Income)
    ensures Cli.AddTransaction(l, amount, date, category, description, "expense").outcome == Fail(Cli.OverBudget)
    ensures SeedAdd(l, amount, date, category, description, "expense").outcome == Pass
    ensures !Balanced(SeedAdd(l, amount, date, category, description, "expense").ledger)
  {
    SeedAddUpdatesTotals(l, amount, date, category, description, "expense", Income);
    SeedAddUpdatesTotals(l, amount, date, category, description, "expense", Expense);
  }
}
