/** The sums: the balance guard's per-type totals over the transactions
    table, the financial summary, and the two group-by reports over the
    joined rows. */
module Aggregation {
  import opened Results
  import opened Store
  import opened Query

  /** `SELECT SUM(amount) FROM transactions WHERE type = ?`, reading the NULL
      of an empty selection as 0. */
  function Total(txns: seq<Transaction>, kind: TxnType): (r: real)
    ensures PositiveAmounts(txns) ==> r >= 0.0
  {
    if txns == [] then 0.0
    else
      var t := txns[|txns| - 1];
      assert PositiveAmounts(txns) ==> PositiveAmounts(txns[..|txns| - 1]);
      Total(txns[..|txns| - 1], kind) + (if t.kind == kind then t.amount else 0.0)
  }

  /** One more transaction moves only the total of its own type, by its amount. */
  lemma TotalAppend(txns: seq<Transaction>, t: Transaction, kind: TxnType)
    ensures Total(txns + [t], kind) == Total(txns, kind) + (if t.kind == kind then t.amount else 0.0)
  {
    assert (txns + [t])[..|txns|] == txns;
  }

  /** Expenses so far do not exceed income so far. */
  predicate Balanced(l: Ledger) {
    Total(l.transactions, Expense) <= Total(l.transactions, Income)
  }

  /** The column a `groupby` keys on. */
  datatype Grouping = ByType | ByCategory

  function Column(r: Row, g: Grouping): string {
    match g
    case ByType => r.typeName
    case ByCategory => r.category
  }

  /** The sum of `amount` over the rows whose column equals `key`. */
  function GroupTotal(rows: seq<Row>, g: Grouping, key: string): real {
    if rows == [] then 0.0
    else
      var r := rows[|rows| - 1];
      GroupTotal(rows[..|rows| - 1], g, key) + (if Column(r, g) == key then r.amount else 0.0)
  }

  /** The sum of `amount` over all rows. */
  function AmountTotal(rows: seq<Row>): real {
    if rows == [] then 0.0 else AmountTotal(rows[..|rows| - 1]) + rows[|rows| - 1].amount
  }

  lemma AmountTotalSnoc(rows: seq<Row>, x: Row)
    ensures AmountTotal(rows + [x]) == AmountTotal(rows) + x.amount
  {
    assert (rows + [x])[..|rows|] == rows;
  }

  /** `df[df[column] == key]`: the rows whose column equals `key`, in order. */
  function Keep(rows: seq<Row>, g: Grouping, key: string): (r: seq<Row>)
    ensures forall x :: x in r <==> x in rows && Column(x, g) == key
  {
    if rows == [] then []
    else
      var init, x := rows[..|rows| - 1], rows[|rows| - 1];
      assert rows == init + [x];
      Keep(init, g, key) + (if Column(x, g) == key then [x] else [])
  }

  /** Filtering on a column and then summing `amount` gives that group's total. */
  lemma {:induction false} KeepTotal(rows: seq<Row>, g: Grouping, key: string)
    ensures AmountTotal(Keep(rows, g, key)) == GroupTotal(rows, g, key)
  {
    if rows != [] {
      var init, x := rows[..|rows| - 1], rows[|rows| - 1];
      KeepTotal(init, g, key);
      if Column(x, g) == key {
        AmountTotalSnoc(Keep(init, g, key), x);
      } else {
        assert Keep(rows, g, key) == Keep(init, g, key) + [] == Keep(init, g, key);
      }
    }
  }

  function GroupKeys(rows: seq<Row>, g: Grouping): set<string> {
    set i | 0 <= i < |rows| :: Column(rows[i], g)
  }

  /** `df.groupby(column)['amount'].sum()`: one entry per value present, and
      each entry is the sum of `amount` over the rows that the filter
      `df[df[column] == key]` keeps. */
  function GroupBy(rows: seq<Row>, g: Grouping): (m: map<string, real>)
    ensures m.Keys == GroupKeys(rows, g)
    ensures forall k :: k in m <==> Keep(rows, g, k) != []
    ensures forall k :: k in m ==> m[k] == AmountTotal(Keep(rows, g, k))
  {
    forall k
      ensures k in GroupKeys(rows, g) <==> Keep(rows, g, k) != []
      ensures AmountTotal(Keep(rows, g, k)) == GroupTotal(rows, g, k)
    {
      KeepTotal(rows, g, k);
      if k in GroupKeys(rows, g) {
        var i :| 0 <= i < |rows| && Column(rows[i], g) == k;
        assert rows[i] in Keep(rows, g, k);
      }
      if Keep(rows, g, k) != [] {
        var x := Keep(rows, g, k)[0];
        assert x in Keep(rows, g, k);
        var i :| 0 <= i < |rows| && rows[i] == x;
      }
    }
    map k | k in GroupKeys(rows, g) :: GroupTotal(rows, g, k)
  }

  predicate NoDuplicates(ks: seq<string>) {
    forall i, j :: 0 <= i < j < |ks| ==> ks[i] != ks[j]
  }

  /** The sum of a map's values, enumerated by `ks`. */
  function SumValues(m: map<string, real>, ks: seq<string>): real
    requires forall i :: 0 <= i < |ks| ==> ks[i] in m
  {
    if ks == [] then 0.0 else m[ks[0]] + SumValues(m, ks[1..])
  }

  /** The group totals of the keys `ks`, added up. */
  function SumOverKeys(rows: seq<Row>, g: Grouping, ks: seq<string>): real {
    if ks == [] then 0.0 else GroupTotal(rows, g, ks[0]) + SumOverKeys(rows, g, ks[1..])
  }

  /** `a`, counted once for each occurrence of `c` in `ks`. */
  function Occurrences(ks: seq<string>, c: string, a: real): real {
    if ks == [] then 0.0 else (if ks[0] == c then a else 0.0) + Occurrences(ks[1..], c, a)
  }

  lemma {:induction false} OccurrencesAbsent(ks: seq<string>, c: string, a: real)
    requires c !in ks
    ensures Occurrences(ks, c, a) == 0.0
  {
    if ks != [] {
      OccurrencesAbsent(ks[1..], c, a);
    }
  }

  lemma {:induction false} OccurrencesOnce(ks: seq<string>, c: string, a: real)
    requires NoDuplicates(ks) && c in ks
    ensures Occurrences(ks, c, a) == a
  {
    if ks[0] == c {
      assert c !in ks[1..];
      OccurrencesAbsent(ks[1..], c, a);
    } else {
      OccurrencesOnce(ks[1..], c, a);
    }
  }

  lemma {:induction false} SumOverKeysSnoc(rows: seq<Row>, x: Row, g: Grouping, ks: seq<string>)
    ensures SumOverKeys(rows + [x], g, ks) == SumOverKeys(rows, g, ks) + Occurrences(ks, Column(x, g), x.amount)
  {
    assert (rows + [x])[..|rows|] == rows;
    if ks != [] {
      SumOverKeysSnoc(rows, x, g, ks[1..]);
    }
  }

  /** Adding up the group totals over any duplicate-free list of keys that
      covers every group gives the total of all amounts. */
  lemma {:induction false} GroupTotalsCoverAll(rows: seq<Row>, g: Grouping, ks: seq<string>)
    requires NoDuplicates(ks)
    requires forall i :: 0 <= i < |rows| ==> Column(rows[i], g) in ks
    ensures SumOverKeys(rows, g, ks) == AmountTotal(rows)
  {
    if rows == [] {
      EmptyGroupTotals(g, ks);
    } else {
      var init, x := rows[..|rows| - 1], rows[|rows| - 1];
      assert rows == init + [x];
      GroupTotalsCoverAll(init, g, ks);
      SumOverKeysSnoc(init, x, g, ks);
      OccurrencesOnce(ks, Column(x, g), x.amount);
    }
  }

  lemma {:induction false} EmptyGroupTotals(g: Grouping, ks: seq<string>)
    ensures SumOverKeys([], g, ks) == 0.0
  {
    if ks != [] {
      EmptyGroupTotals(g, ks[1..]);
    }
  }

  /** The values of a group-by add up to the total of all amounts, whichever
      order the keys are enumerated in. */
  lemma {:induction false} GroupBySumsToTotal(rows: seq<Row>, g: Grouping, ks: seq<string>)
    requires NoDuplicates(ks)
    requires forall k :: k in ks <==> k in GroupBy(rows, g)
    ensures SumValues(GroupBy(rows, g), ks) == AmountTotal(rows)
  {
    SumValuesIsSumOverKeys(rows, g, ks);
    forall i | 0 <= i < |rows| ensures Column(rows[i], g) in ks {
      assert Column(rows[i], g) in GroupKeys(rows, g);
    }
    GroupTotalsCoverAll(rows, g, ks);
  }

  lemma {:induction false} SumValuesIsSumOverKeys(rows: seq<Row>, g: Grouping, ks: seq<string>)
    requires forall i :: 0 <= i < |ks| ==> ks[i] in GroupBy(rows, g)
    ensures SumValues(GroupBy(rows, g), ks) == SumOverKeys(rows, g, ks)
  {
    if ks != [] {
      SumValuesIsSumOverKeys(rows, g, ks[1..]);
    }
  }

  /** `calculate_financial_summary`'s three figures. */
  datatype Summary = Summary(income: real, expense: real, net: real)

  /** `df[df['type'] == ...]['amount'].sum()` for each type, and their difference. */
  function Summarize(rows: seq<Row>): Summary {
    var income := AmountTotal(Keep(rows, ByType, "income"));
    var expense := AmountTotal(Keep(rows, ByType, "expense"));
    Summary(income, expense, income - expense)
  }

  function FinancialSummary(l: Ledger): (r: Summary)
    ensures r.net == r.income - r.expense
    ensures ReferencesResolve(l) ==>
      r.income == Total(l.transactions, Income) && r.expense == Total(l.transactions, Expense)
  {
    assert ReferencesResolve(l) ==>
      (&& GroupTotal(Join(l), ByType, "income") == Total(l.transactions, Income)
       && GroupTotal(Join(l), ByType, "expense") == Total(l.transactions, Expense)) by {
      if ReferencesResolve(l) {
        JoinTotals(l.categories, l.transactions, Income);
        JoinTotals(l.categories, l.transactions, Expense);
      }
    }
    KeepTotal(Join(l), ByType, "income");
    KeepTotal(Join(l), ByType, "expense");
    Summarize(Join(l))
  }

  /** `generate_financial_report`'s income-versus-expenses bars. */
  function TypeReport(l: Ledger): (r: map<string, real>)
    ensures forall k :: k in r ==> k == "income" || k == "expense"
    ensures ReferencesResolve(l) ==> forall kind ::
      (TypeName(kind) in r <==> exists i :: 0 <= i < |l.transactions| && l.transactions[i].kind == kind)
    ensures ReferencesResolve(l) ==> forall kind ::
      TypeName(kind) in r ==> r[TypeName(kind)] == Total(l.transactions, kind)
  {
    var rows := Join(l);
    JoinTypeNames(l.categories, l.transactions);
    forall k | k in GroupKeys(rows, ByType) ensures k == "income" || k == "expense" {
      var i :| 0 <= i < |rows| && Column(rows[i], ByType) == k;
      assert rows[i] in rows;
    }
    assert ReferencesResolve(l) ==> forall kind ::
      (&& (TypeName(kind) in GroupBy(rows, ByType) <==>
             exists i :: 0 <= i < |l.transactions| && l.transactions[i].kind == kind)
       && (TypeName(kind) in GroupBy(rows, ByType) ==>
             GroupBy(rows, ByType)[TypeName(kind)] == Total(l.transactions, kind))) by {
      if ReferencesResolve(l) {
        forall kind
          ensures TypeName(kind) in GroupBy(rows, ByType) <==>
            exists i :: 0 <= i < |l.transactions| && l.transactions[i].kind == kind
          ensures TypeName(kind) in GroupBy(rows, ByType) ==>
            GroupBy(rows, ByType)[TypeName(kind)] == Total(l.transactions, kind)
        {
          ByTypeOfJoin(l.categories, l.transactions, kind);
        }
      }
    }
    GroupBy(rows, ByType)
  }

  /** `generate_financial_report`'s spending-by-category pie, which sums income
      and expense rows of a category together. */
  function CategoryReport(l: Ledger): (r: map<string, real>)
    ensures forall k :: k in r <==>
      exists t :: t in l.transactions && CategoryNameOf(l.categories, t.categoryId) == Some(k)
    ensures forall k :: k in r ==> r[k] == CategoryTotal(l.categories, l.transactions, k)
  {
    var rows := Join(l);
    forall k
      ensures k in GroupKeys(rows, ByCategory) <==>
        exists t :: t in l.transactions && CategoryNameOf(l.categories, t.categoryId) == Some(k)
      ensures GroupTotal(rows, ByCategory, k) == CategoryTotal(l.categories, l.transactions, k)
    {
      JoinCategoryTotals(l.categories, l.transactions, k);
      if k in GroupKeys(rows, ByCategory) {
        var i :| 0 <= i < |rows| && Column(rows[i], ByCategory) == k;
        assert rows[i] in rows;
        var t :| t in l.transactions && JoinsAs(l.categories, t, rows[i]);
      }
      if t :| t in l.transactions && CategoryNameOf(l.categories, t.categoryId) == Some(k) {
        var x := RowOf(t, k);
        assert JoinsAs(l.categories, t, x);
        assert x in rows;
        var i :| 0 <= i < |rows| && rows[i] == x;
        assert Column(rows[i], ByCategory) == k;
      }
    }
    GroupBy(rows, ByCategory)
  }

  /** The sum of `amount` over the transactions whose category id names the
      category `name`, income and expense alike. */
  function CategoryTotal(cats: seq<Category>, txns: seq<Transaction>, name: string): real {
    if txns == [] then 0.0
    else
      var t := txns[|txns| - 1];
      CategoryTotal(cats, txns[..|txns| - 1], name) +
        (if CategoryNameOf(cats, t.categoryId) == Some(name) then t.amount else 0.0)
  }

  /** Over the joined rows, a category's sum is the table's total for that
      category: a dangling transaction has no row and names no category. */
  lemma {:induction false} JoinCategoryTotals(cats: seq<Category>, txns: seq<Transaction>, name: string)
    ensures GroupTotal(JoinRows(cats, txns), ByCategory, name) == CategoryTotal(cats, txns, name)
  {
    if txns != [] {
      var init, t := txns[..|txns| - 1], txns[|txns| - 1];
      JoinCategoryTotals(cats, init, name);
      match CategoryNameOf(cats, t.categoryId)
      case Some(n) =>
        GroupTotalSnoc(JoinRows(cats, init), RowOf(t, n), ByCategory, name);
      case None =>
        assert JoinRows(cats, txns) == JoinRows(cats, init) + [] == JoinRows(cats, init);
    }
  }

  lemma GroupTotalSnoc(rows: seq<Row>, x: Row, g: Grouping, key: string)
    ensures GroupTotal(rows + [x], g, key) == GroupTotal(rows, g, key) + (if Column(x, g) == key then x.amount else 0.0)
  {
    assert (rows + [x])[..|rows|] == rows;
  }

  /** Over the joined rows of a consistent ledger, the per-type sum equals the
      per-type total of the transactions table. */
  lemma {:induction false} JoinTotals(cats: seq<Category>, txns: seq<Transaction>, kind: TxnType)
    requires forall i :: 0 <= i < |txns| ==> HasCategoryId(cats, txns[i].categoryId)
    ensures GroupTotal(JoinRows(cats, txns), ByType, TypeName(kind)) == Total(txns, kind)
  {
    if txns != [] {
      var init, t := txns[..|txns| - 1], txns[|txns| - 1];
      assert txns == init + [t];
      assert forall i :: 0 <= i < |init| ==> init[i] == txns[i];
      JoinTotals(cats, init, kind);
      var row := RowOf(t, CategoryNameOf(cats, t.categoryId).value);
      JoinAppend(cats, init, t);
      GroupTotalSnoc(JoinRows(cats, init), row, ByType, TypeName(kind));
      TotalAppend(init, t, kind);
    }
  }

  /** The joined rows hold only the two type names the schema admits. */
  lemma {:induction false} JoinTypeNames(cats: seq<Category>, txns: seq<Transaction>)
    ensures forall r :: r in JoinRows(cats, txns) ==> r.typeName == "income" || r.typeName == "expense"
  {
    if txns != [] {
      JoinTypeNames(cats, txns[..|txns| - 1]);
    }
  }

  /** The summary agrees with the guard's totals over the transactions table,
      and the net is income minus expense. */
  lemma SummaryMatchesTotals(l: Ledger)
    requires Valid(l)
    ensures FinancialSummary(l).income == Total(l.transactions, Income)
    ensures FinancialSummary(l).expense == Total(l.transactions, Expense)
    ensures FinancialSummary(l).net == Total(l.transactions, Income) - Total(l.transactions, Expense)
  {
    JoinTotals(l.categories, l.transactions, Income);
    JoinTotals(l.categories, l.transactions, Expense);
  }

  /** An empty ledger summarises to zeros and reports nothing. */
  lemma EmptySummary()
    ensures FinancialSummary(EmptyLedger) == Summary(0.0, 0.0, 0.0)
    ensures TypeReport(EmptyLedger) == map[]
    ensures CategoryReport(EmptyLedger) == map[]
  {
  }

  /** On a valid ledger the by-type report, read by its string keys, has a
      bar for each type name present and no other, and each bar is that
      type's total. */
  lemma TypeReportKeys(l: Ledger)
    requires Valid(l)
    ensures forall k :: k in TypeReport(l) <==>
      exists i :: 0 <= i < |l.transactions| && TypeName(l.transactions[i].kind) == k
    ensures forall kind :: TypeName(kind) in TypeReport(l) ==>
      TypeReport(l)[TypeName(kind)] == Total(l.transactions, kind)
  {
    var rows := Join(l);
    JoinComplete(l.categories, l.transactions);
    forall k ensures k in TypeReport(l) <==> exists i :: 0 <= i < |l.transactions| && TypeName(l.transactions[i].kind) == k {
      if k in TypeReport(l) {
        var i :| 0 <= i < |rows| && Column(rows[i], ByType) == k;
        assert TypeName(l.transactions[i].kind) == k;
      }
      if exists i :: 0 <= i < |l.transactions| && TypeName(l.transactions[i].kind) == k {
        var i :| 0 <= i < |l.transactions| && TypeName(l.transactions[i].kind) == k;
        assert Column(rows[i], ByType) == k;
      }
    }
  }

  /** The by-type groups of the join are the types present, each holding
      that type's total. */
  lemma ByTypeOfJoin(cats: seq<Category>, txns: seq<Transaction>, kind: TxnType)
    requires forall i :: 0 <= i < |txns| ==> HasCategoryId(cats, txns[i].categoryId)
    ensures TypeName(kind) in GroupBy(JoinRows(cats, txns), ByType) <==>
      exists i :: 0 <= i < |txns| && txns[i].kind == kind
    ensures TypeName(kind) in GroupBy(JoinRows(cats, txns), ByType) ==>
      GroupBy(JoinRows(cats, txns), ByType)[TypeName(kind)] == Total(txns, kind)
    ensures forall k :: k in GroupBy(JoinRows(cats, txns), ByType) ==> k == "income" || k == "expense"
  {
    var rows, key := JoinRows(cats, txns), TypeName(kind);
    JoinComplete(cats, txns);
    JoinTotals(cats, txns, kind);
    JoinTypeNames(cats, txns);
    if exists i :: 0 <= i < |txns| && txns[i].kind == kind {
      var i :| 0 <= i < |txns| && txns[i].kind == kind;
      assert Column(rows[i], ByType) == key;
    }
    if key in GroupKeys(rows, ByType) {
      var i :| 0 <= i < |rows| && Column(rows[i], ByType) == key;
      assert rows[i].typeName == TypeName(txns[i].kind);
      ParseTypeName(txns[i].kind);
      ParseTypeName(kind);
    }
    forall k | k in GroupKeys(rows, ByType) ensures k == "income" || k == "expense" {
      var i :| 0 <= i < |rows| && Column(rows[i], ByType) == k;
      assert rows[i] in rows;
    }
  }

  /** The summary's filter-then-sum and the by-type report's group-by-sum
      agree on every type: a bar's height is the summary's figure, and a
      missing bar means the figure is 0. */
  lemma SummaryAgreesWithTypeReport(l: Ledger, kind: TxnType)
    ensures var s := FinancialSummary(l);
      var figure := if kind == Income then s.income else s.expense;
      && (TypeName(kind) in TypeReport(l) ==> TypeReport(l)[TypeName(kind)] == figure)
      && (TypeName(kind) !in TypeReport(l) ==> figure == 0.0)
  {
    var rows := Join(l);
    assert TypeReport(l) == GroupBy(rows, ByType);
    if TypeName(kind) !in TypeReport(l) {
      assert Keep(rows, ByType, TypeName(kind)) == [];
    }
  }

  /** The spending-by-category values, added up over every category present,
      give total income plus total expense: income is counted in with spending. */
  lemma CategoryReportAddsUp(l: Ledger, ks: seq<string>)
    requires Valid(l)
    requires NoDuplicates(ks)
    requires forall k :: k in ks <==> k in CategoryReport(l)
    ensures SumValues(CategoryReport(l), ks) ==
            FinancialSummary(l).income + FinancialSummary(l).expense
  {
    var rows := Join(l);
    KeepTotal(rows, ByType, "income");
    KeepTotal(rows, ByType, "expense");
    GroupBySumsToTotal(rows, ByCategory, ks);
    JoinTypeNames(l.categories, l.transactions);
    forall i | 0 <= i < |rows| ensures Column(rows[i], ByType) in ["income", "expense"] {
      assert rows[i] in rows;
    }
    GroupTotalsCoverAll(rows, ByType, ["income", "expense"]);
    assert ["income", "expense"][1..] == ["expense"];
    assert SumOverKeys(rows, ByType, ["expense"]) == GroupTotal(rows, ByType, "expense");
  }
}
