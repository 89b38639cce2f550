/** The validated entry path of the command-line front end: field validation,
    the balance guard, and the guarded add. */
module Cli {
  import opened Results
  import opened Text
  import opened Dates
  import opened Store
  import opened Query
  import opened Aggregation

  /** The reasons `validate_transaction` raises, one per field. */
  datatype ValidationError = NonPositiveAmount | MalformedDate | BlankCategory | BlankDescription | UnknownType

  /** `validate_transaction`: the checks run in a fixed order and the first
      failing one is reported; on success the parsed type is returned. */
  function ValidateTransaction(amount: real, date: string, category: string,
                               description: string, typeName: string): (r: Result<TxnType, ValidationError>)
    ensures r == Err(NonPositiveAmount) <==> amount <= 0.0
    ensures r == Err(MalformedDate) <==> amount > 0.0 && !ValidateDate(date)
    ensures r == Err(BlankCategory) <==> amount > 0.0 && ValidateDate(date) && IsBlank(category)
    ensures r == Err(BlankDescription) <==>
      amount > 0.0 && ValidateDate(date) && !IsBlank(category) && IsBlank(description)
    ensures r == Err(UnknownType) <==>
      amount > 0.0 && ValidateDate(date) && !IsBlank(category) && !IsBlank(description)
      && typeName != "income" && typeName != "expense"
    ensures r.Ok? ==> TypeName(r.value) == typeName
  {
    StripEmptyIffBlank(category);
    StripEmptyIffBlank(description);
    if amount <= 0.0 then Err(NonPositiveAmount)
    else if !ValidateDate(date) then Err(MalformedDate)
    else if Strip(category) == "" then Err(BlankCategory)
    else if Strip(description) == "" then Err(BlankDescription)
    else match ParseType(typeName)
      case None => Err(UnknownType)
      case Some(kind) => Ok(kind)
  }

  /** Why the guarded add refused. */
  datatype AddError = Invalid(reason: ValidationError) | OverBudget

  /** The balance guard: an expense is refused when it would lift the expense
      total above the income total. */
  predicate OverBudgetFor(l: Ledger, kind: TxnType, amount: real): (b: bool)
    ensures Balanced(l) && amount >= 0.0 ==>
      (!b <==> Total(l.transactions, Expense) + (if kind == Expense then amount else 0.0) <=
               Total(l.transactions, Income) + (if kind == Income then amount else 0.0))
  {
    kind == Expense && Total(l.transactions, Expense) + amount > Total(l.transactions, Income)
  }

  /** `add_transaction` of the command-line front end: validate, then guard,
      then resolve or create the category and insert. Any refusal leaves the
      ledger as it was; in particular a guarded refusal creates no category. */
  function AddTransaction(l: Ledger, amount: real, date: string, category: string,
                          description: string, typeName: string): (r: Applied<AddError>)
    ensures r.outcome.Fail? ==> r.ledger == l
    ensures forall e :: r.outcome == Fail(Invalid(e)) <==>
      ValidateTransaction(amount, date, category, description, typeName) == Err(e)
    ensures r.outcome == Fail(OverBudget) <==>
      && ValidateTransaction(amount, date, category, description, typeName).Ok?
      && typeName == "expense"
      && Total(l.transactions, Expense) + amount > Total(l.transactions, Income)
    ensures r.outcome.Pass? && Valid(l) ==>
      && AppendedOne(l, r.ledger, amount, date, category, description, ParseType(typeName).value)
      && Valid(r.ledger)
  {
    match ValidateTransaction(amount, date, category, description, typeName)
    case Err(e) => Applied(l, Fail(Invalid(e)))
    case Ok(kind) =>
      if OverBudgetFor(l, kind, amount) then Applied(l, Fail(OverBudget))
      else Applied(Insert(l, amount, date, category, description, kind), Pass)
  }

  /** The guard never refuses income, admits an expense that brings expenses
      exactly level with income, and on a ledger with no income refuses every
      positive expense. */
  lemma GuardBoundaries(l: Ledger, amount: real)
    ensures !OverBudgetFor(l, Income, amount)
    ensures Total(l.transactions, Expense) + amount == Total(l.transactions, Income) ==>
      !OverBudgetFor(l, Expense, amount)
    ensures !OverBudgetFor(EmptyLedger, Expense, amount) <==> amount <= 0.0
  {
  }

  /** A successful add moves only the total of its own type, by its amount. */
  lemma AddUpdatesTotals(l: Ledger, amount: real, date: string, category: string,
                         description: string, typeName: string, kind: TxnType)
    requires Valid(l)
    requires AddTransaction(l, amount, date, category, description, typeName).outcome.Pass?
    ensures Total(AddTransaction(l, amount, date, category, description, typeName).ledger.transactions, kind) ==
            Total(l.transactions, kind) + (if TypeName(kind) == typeName then amount else 0.0)
  {
    var r := AddTransaction(l, amount, date, category, description, typeName);
    var t := r.ledger.transactions[|l.transactions|];
    assert r.ledger.transactions == l.transactions + [t];
    TotalAppend(l.transactions, t, kind);
  }

  /** An add on the guarded path keeps expenses within income. */
  lemma AddKeepsBalanced(l: Ledger, amount: real, date: string, category: string,
                         description: string, typeName: string)
    requires Valid(l) && Balanced(l)
    ensures Balanced(AddTransaction(l, amount, date, category, description, typeName).ledger)
  {
    if AddTransaction(l, amount, date, category, description, typeName).outcome.Pass? {
      AddUpdatesTotals(l, amount, date, category, description, typeName, Income);
      AddUpdatesTotals(l, amount, date, category, description, typeName, Expense);
    }
  }

  /** Two adds naming the same category share one category row: the second
      reuses the first one's id and creates nothing. */
  lemma SameCategoryReused(l: Ledger, a1: real, d1: string, s1: string, t1: string,
                           a2: real, d2: string, s2: string, t2: string, category: string)
    requires Valid(l)
    requires AddTransaction(l, a1, d1, category, s1, t1).outcome.Pass?
    requires AddTransaction(AddTransaction(l, a1, d1, category, s1, t1).ledger, a2, d2, category, s2, t2).outcome.Pass?
    ensures var l1 := AddTransaction(l, a1, d1, category, s1, t1).ledger;
            var l2 := AddTransaction(l1, a2, d2, category, s2, t2).ledger;
            && l2.categories == l1.categories
            && |l1.categories| <= |l.categories| + 1
            && l2.transactions[|l.transactions|].categoryId == l2.transactions[|l.transactions| + 1].categoryId
  {
    var l1 := AddTransaction(l, a1, d1, category, s1, t1).ledger;
    var l2 := AddTransaction(l1, a2, d2, category, s2, t2).ledger;
    assert HasCategoryName(l1.categories, category) by {
      var i :| 0 <= i < |l1.categories| && l1.categories[i] == Category(l1.transactions[|l.transactions|].categoryId, category);
    }
    assert l2.transactions[|l.transactions|] == l1.transactions[|l.transactions|];
  }

  /** Adding and then viewing without a filter returns the earlier rows
      followed by one row carrying exactly the input. */
  lemma AddThenView(l: Ledger, amount: real, date: string, category: string,
                    description: string, typeName: string)
    requires Valid(l)
    requires AddTransaction(l, amount, date, category, description, typeName).outcome.Pass?
    ensures var l' := AddTransaction(l, amount, date, category, description, typeName).ledger;
            exists id :: View(l', NoFilter) == View(l, NoFilter) + [Row(id, amount, date, category, description, typeName)]
  {
    var l' := AddTransaction(l, amount, date, category, description, typeName).ledger;
    var n := |l.transactions|;
    var t := l'.transactions[n];
    assert l'.transactions == l.transactions + [t];
    assert HasCategoryId(l'.categories, t.categoryId);
    JoinAppend(l'.categories, l.transactions, t);
    if HasCategoryName(l.categories, category) {
      assert l'.categories == l.categories;
    } else {
      assert l'.categories == l.categories + [l'.categories[|l.categories|]];
      JoinExtendCategories(l.categories, [l'.categories[|l.categories|]], l.transactions);
    }
    ViewUnfiltered(l, NoFilter);
    ViewUnfiltered(l', NoFilter);
    assert View(l', NoFilter) == View(l, NoFilter) + [Row(t.id, amount, date, category, description, typeName)];
  }

  lemma ScenarioStep(l: Ledger, amount: real, date: string, category: string, description: string,
                     typeName: string, income: real, expense: real)
    requires Valid(l) && ValidateDate(date) && amount > 0.0
    requires !IsBlank(category) && !IsBlank(description) && (typeName == "income" || typeName == "expense")
    requires Total(l.transactions, Income) == income && Total(l.transactions, Expense) == expense
    requires typeName == "expense" ==> expense + amount <= income
    ensures var r := AddTransaction(l, amount, date, category, description, typeName);
      && r.outcome == Pass && Valid(r.ledger)
      && Total(r.ledger.transactions, Income) == income + (if typeName == "income" then amount else 0.0)
      && Total(r.ledger.transactions, Expense) == expense + (if typeName == "expense" then amount else 0.0)
  {
    AddUpdatesTotals(l, amount, date, category, description, typeName, Income);
    AddUpdatesTotals(l, amount, date, category, description, typeName, Expense);
  }

  /** Starting from `l0`: income 1000 (under the salary category), then
      expenses 300 and 800 (under the rent category). The first two are
      added, the third is refused as over budget (300 + 800 > 1000), and the
      summary reads income 1000, expense 300, net 700. */
  predicate SalaryRentOutcome(l0: Ledger, date: string, salary: string, rent: string, memo: string) {
    var r1 := AddTransaction(l0, 1000.0, date, salary, memo, "income");
    var r2 := AddTransaction(r1.ledger, 300.0, date, rent, memo, "expense");
    var r3 := AddTransaction(r2.ledger, 800.0, date, rent, memo, "expense");
    && r1.outcome == Pass && r2.outcome == Pass && r3.outcome == Fail(OverBudget)
    && FinancialSummary(r3.ledger) == Summary(1000.0, 300.0, 700.0)
  }

  lemma ScenarioSummary(l: Ledger, income: real, expense: real)
    requires Valid(l) && Total(l.transactions, Income) == income && Total(l.transactions, Expense) == expense
    ensures FinancialSummary(l) == Summary(income, expense, income - expense)
  {
    SummaryMatchesTotals(l);
    var sum := FinancialSummary(l);
    assert sum == Summary(sum.income, sum.expense, sum.net);
  }

  lemma ScenarioRefusal(l: Ledger, amount: real, date: string, category: string, description: string)
    requires ValidateDate(date) && amount > 0.0 && !IsBlank(category) && !IsBlank(description)
    requires Total(l.transactions, Expense) + amount > Total(l.transactions, Income)
    ensures AddTransaction(l, amount, date, category, description, "expense") == Applied(l, Fail(OverBudget))
  {
  }

  /** The salary/rent sequence behaves as described, from any ledger with no
      transactions yet, for any valid date and non-blank names. */
  lemma SalaryRentScenario(l0: Ledger, date: string, salary: string, rent: string, memo: string)
    requires Valid(l0) && l0.transactions == []
    requires ValidateDate(date)
    requires !IsBlank(salary) && !IsBlank(rent) && !IsBlank(memo)
    ensures SalaryRentOutcome(l0, date, salary, rent, memo)
  {
    var r1 := AddTransaction(l0, 1000.0, date, salary, memo, "income");
    var l1 := r1.ledger;
    assert r1.outcome == Pass && Valid(l1) && Total(l1.transactions, Income) == 1000.0
        && Total(l1.transactions, Expense) == 0.0 by {
      ScenarioStep(l0, 1000.0, date, salary, memo, "income", 0.0, 0.0);
    }
    var r2 := AddTransaction(l1, 300.0, date, rent, memo, "expense");
    var l2 := r2.ledger;
    assert r2.outcome == Pass && Valid(l2) && Total(l2.transactions, Income) == 1000.0
        && Total(l2.transactions, Expense) == 300.0 by {
      ScenarioStep(l1, 300.0, date, rent, memo, "expense", 1000.0, 0.0);
    }
    var r3 := AddTransaction(l2, 800.0, date, rent, memo, "expense");
    assert r3 == Applied(l2, Fail(OverBudget)) by {
      ScenarioRefusal(l2, 800.0, date, rent, memo);
    }
    assert FinancialSummary(r3.ledger) == Summary(1000.0, 300.0, 700.0) by {
      ScenarioSummary(l2, 1000.0, 300.0);
    }
  }
}
