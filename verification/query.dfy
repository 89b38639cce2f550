/** Reading the ledger: the transactions-categories inner join and the
    optional, conjunctive filter of `view_transactions`. */
module Query {
  import opened Results
  import opened Store

  /** A joined row: the transaction with its category's name and its type's text. */
  datatype Row = Row(id: int, amount: real, date: string, category: string, description: string, typeName: string)

  function RowOf(t: Transaction, name: string): Row {
    Row(t.id, t.amount, t.date, name, t.description, TypeName(t.kind))
  }

  /** `transactions INNER JOIN categories ON category_id = categories.id`, in
      transaction order; a transaction whose category is missing yields no row. */
  function JoinRows(cats: seq<Category>, txns: seq<Transaction>): (rows: seq<Row>)
    ensures |rows| <= |txns|
  {
    if txns == [] then []
    else
      var t := txns[|txns| - 1];
      JoinRows(cats, txns[..|txns| - 1]) +
        match CategoryNameOf(cats, t.categoryId)
        case Some(name) => [RowOf(t, name)]
        case None => []
  }

  /** A transaction appears in the join when its category exists, with that category's name. */
  predicate JoinsAs(cats: seq<Category>, t: Transaction, r: Row) {
    CategoryNameOf(cats, t.categoryId).Some? && r == RowOf(t, CategoryNameOf(cats, t.categoryId).value)
  }

  /** The inner join holds exactly the rows of transactions whose category
      exists: none for a dangling reference, and nothing invented. */
  lemma {:induction false} JoinRowsMembers(cats: seq<Category>, txns: seq<Transaction>)
    ensures forall r :: r in JoinRows(cats, txns) <==> exists t :: t in txns && JoinsAs(cats, t, r)
  {
    if txns != [] {
      var init, last := txns[..|txns| - 1], txns[|txns| - 1];
      JoinRowsMembers(cats, init);
      assert txns == init + [last];
      forall r
        ensures r in JoinRows(cats, txns) <==> exists t :: t in txns && JoinsAs(cats, t, r)
      {
        if r in JoinRows(cats, txns) {
          if r in JoinRows(cats, init) {
            var t :| t in init && JoinsAs(cats, t, r);
            assert t in txns;
          } else {
            assert JoinsAs(cats, last, r);
          }
        }
        if t :| t in txns && JoinsAs(cats, t, r) {
          if t in init {
            assert r in JoinRows(cats, init);
          } else {
            assert t == last;
          }
        }
      }
    }
  }

  /** `view_transactions`' join: with every reference resolving, one row per
      transaction, in order, with its category's name. */
  function Join(l: Ledger): (rows: seq<Row>)
    ensures forall r :: r in rows <==> exists t :: t in l.transactions && JoinsAs(l.categories, t, r)
    ensures ReferencesResolve(l) ==> |rows| == |l.transactions|
    ensures ReferencesResolve(l) ==> forall i :: 0 <= i < |l.transactions| ==>
      JoinsAs(l.categories, l.transactions[i], rows[i])
  {
    JoinRowsMembers(l.categories, l.transactions);
    assert ReferencesResolve(l) ==>
      (&& |JoinRows(l.categories, l.transactions)| == |l.transactions|
       && forall i :: 0 <= i < |l.transactions| ==>
            JoinsAs(l.categories, l.transactions[i], JoinRows(l.categories, l.transactions)[i])) by {
      if ReferencesResolve(l) {
        JoinComplete(l.categories, l.transactions);
      }
    }
    JoinRows(l.categories, l.transactions)
  }

  /** When every reference resolves, the join loses no transaction: row `i` is
      transaction `i` with the name of its category. */
  lemma {:induction false} JoinComplete(cats: seq<Category>, txns: seq<Transaction>)
    requires forall i :: 0 <= i < |txns| ==> HasCategoryId(cats, txns[i].categoryId)
    ensures |JoinRows(cats, txns)| == |txns|
    ensures forall i :: 0 <= i < |txns| ==>
      CategoryNameOf(cats, txns[i].categoryId).Some? &&
      JoinRows(cats, txns)[i] == RowOf(txns[i], CategoryNameOf(cats, txns[i].categoryId).value)
  {
    if txns != [] {
      var init, t := txns[..|txns| - 1], txns[|txns| - 1];
      assert forall i :: 0 <= i < |init| ==> init[i] == txns[i];
      JoinComplete(cats, init);
      var row := RowOf(t, CategoryNameOf(cats, t.categoryId).value);
      assert JoinRows(cats, txns) == JoinRows(cats, init) + [row];
      forall i | 0 <= i < |txns|
        ensures JoinRows(cats, txns)[i] == RowOf(txns[i], CategoryNameOf(cats, txns[i].categoryId).value)
      {
        if i < |init| {
          assert JoinRows(cats, txns)[i] == JoinRows(cats, init)[i];
        }
      }
    }
  }

  /** Joining more transactions only appends rows. */
  lemma {:induction false} JoinAppend(cats: seq<Category>, txns: seq<Transaction>, t: Transaction)
    requires HasCategoryId(cats, t.categoryId)
    ensures JoinRows(cats, txns + [t]) == JoinRows(cats, txns) + [RowOf(t, CategoryNameOf(cats, t.categoryId).value)]
  {
    assert (txns + [t])[..|txns|] == txns;
  }

  /** New categories do not change the join of transactions whose categories
      already exist. */
  lemma {:induction false} JoinExtendCategories(cats: seq<Category>, more: seq<Category>, txns: seq<Transaction>)
    requires forall i :: 0 <= i < |txns| ==> HasCategoryId(cats, txns[i].categoryId)
    ensures JoinRows(cats + more, txns) == JoinRows(cats, txns)
  {
    if txns != [] {
      var init := txns[..|txns| - 1];
      assert forall i :: 0 <= i < |init| ==> init[i] == txns[i];
      JoinExtendCategories(cats, more, init);
      CategoryNameOfExtend(cats, more, txns[|txns| - 1].categoryId);
    }
  }

  /** The view's optional filters; None (argument absent) and Some("")
      (argument empty) both leave the field unconstrained. */
  datatype Filter = Filter(category: Option<string>, date: Option<string>, typeName: Option<string>)

  const NoFilter := Filter(None, None, None)

  predicate Constrains(o: Option<string>) {
    o.Some? && o.value != ""
  }

  predicate FieldMatches(o: Option<string>, value: string) {
    Constrains(o) ==> value == o.value
  }

  /** The WHERE clause: the conjunction of the supplied equality tests. */
  predicate Matches(r: Row, f: Filter) {
    && FieldMatches(f.category, r.category)
    && FieldMatches(f.date, r.date)
    && FieldMatches(f.typeName, r.typeName)
  }

  /** Keeps the matching rows, in order. */
  function Select(rows: seq<Row>, f: Filter): (r: seq<Row>)
    ensures |r| <= |rows|
    ensures forall x :: x in r ==> x in rows && Matches(x, f)
    ensures forall i :: 0 <= i < |rows| && Matches(rows[i], f) ==> rows[i] in r
  {
    if rows == [] then []
    else
      var init := Select(rows[..|rows| - 1], f);
      var last := rows[|rows| - 1];
      assert forall i :: 0 <= i < |rows| - 1 ==> rows[..|rows| - 1][i] == rows[i];
      if Matches(last, f) then init + [last] else init
  }

  /** `view_transactions`: the joined rows that satisfy the filter. */
  function View(l: Ledger, f: Filter): (rows: seq<Row>)
    ensures forall r :: r in rows <==>
      Matches(r, f) && exists t :: t in l.transactions && JoinsAs(l.categories, t, r)
    ensures |rows| <= |Join(l)|
  {
    var rows := Join(l);
    forall r | r in rows && Matches(r, f)
      ensures r in Select(rows, f)
    {
      var i :| 0 <= i < |rows| && rows[i] == r;
    }
    Select(rows, f)
  }

  /** Filtering distributes over concatenation, so the view keeps store order. */
  lemma {:induction false} SelectConcat(a: seq<Row>, b: seq<Row>, f: Filter)
    ensures Select(a + b, f) == Select(a, f) + Select(b, f)
  {
    if b != [] {
      var b' := b[..|b| - 1];
      assert (a + b)[..|a + b| - 1] == a + b';
      SelectConcat(a, b', f);
    } else {
      assert a + b == a;
    }
  }

  /** A filter whose fields are all absent or empty returns every row. */
  lemma {:induction false} SelectUnconstrained(rows: seq<Row>, f: Filter)
    requires !Constrains(f.category) && !Constrains(f.date) && !Constrains(f.typeName)
    ensures Select(rows, f) == rows
  {
    if rows != [] {
      var init := rows[..|rows| - 1];
      SelectUnconstrained(init, f);
      assert Matches(rows[|rows| - 1], f);
      assert init + [rows[|rows| - 1]] == rows;
    }
  }

  /** Filtering by `g` and then by `h` is filtering by their conjunction `f`. */
  lemma {:induction false} SelectTwice(rows: seq<Row>, g: Filter, h: Filter, f: Filter)
    requires forall x :: Matches(x, f) <==> Matches(x, g) && Matches(x, h)
    ensures Select(Select(rows, g), h) == Select(rows, f)
  {
    if rows != [] {
      var init, last := rows[..|rows| - 1], rows[|rows| - 1];
      SelectTwice(init, g, h, f);
      var a := Select(init, g);
      if Matches(last, g) {
        assert Select(rows, g) == a + [last];
        assert (a + [last])[..|a|] == a;
      }
    }
  }

  /** The filters are conjunctive: applying all three at once equals applying
      each one alone in turn. */
  lemma SelectConjunctive(rows: seq<Row>, f: Filter)
    ensures Select(rows, f) ==
      Select(Select(Select(rows, Filter(f.category, None, None)), Filter(None, f.date, None)), Filter(None, None, f.typeName))
  {
    var fcd := Filter(f.category, f.date, None);
    SelectTwice(rows, Filter(f.category, None, None), Filter(None, f.date, None), fcd);
    SelectTwice(rows, fcd, Filter(None, None, f.typeName), f);
  }

  /** A missing or empty filter imposes no constraint: the view is the whole join. */
  lemma ViewUnfiltered(l: Ledger, f: Filter)
    requires !Constrains(f.category) && !Constrains(f.date) && !Constrains(f.typeName)
    ensures View(l, f) == Join(l)
  {
    SelectUnconstrained(Join(l), f);
  }
}
