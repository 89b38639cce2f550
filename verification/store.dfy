/** The persisted ledger: the `categories` table (name -> id) and the
    `transactions` table, with the schema's constraints as invariants, the
    category resolve-or-create step, and the insertion both add paths share. */
module Store {
  import opened Results

  /** The two values the schema's CHECK constraint on `type` admits. */
  datatype TxnType = Income | Expense

  /** The text stored in the `type` column. */
  function TypeName(t: TxnType): string {
    match t
    case Income => "income"
    case Expense => "expense"
  }

  /** Reads a `type` argument; None for anything the CHECK constraint refuses. */
  function ParseType(s: string): (r: Option<TxnType>)
    ensures r.Some? <==> s == "income" || s == "expense"
    ensures r.Some? ==> TypeName(r.value) == s
  {
    if s == "income" then Some(Income)
    else if s == "expense" then Some(Expense)
    else None
  }

  lemma ParseTypeName(t: TxnType)
    ensures ParseType(TypeName(t)) == Some(t)
  {
  }

  /** A row of `categories`. */
  datatype Category = Category(id: int, name: string)

  /** A row of `transactions`; the date is the stored text. */
  datatype Transaction = Transaction(
    id: int,
    amount: real,
    date: string,
    categoryId: int,
    description: string,
    kind: TxnType)

  /** Both tables, each in rowid (insertion) order. */
  datatype Ledger = Ledger(categories: seq<Category>, transactions: seq<Transaction>)

  const EmptyLedger := Ledger([], [])

  /** The ledger after an add, and whether the add went through. */
  datatype Applied<+E> = Applied(ledger: Ledger, outcome: Outcome<E>)

  predicate HasCategoryName(cats: seq<Category>, name: string) {
    exists i :: 0 <= i < |cats| && cats[i].name == name
  }

  predicate HasCategoryId(cats: seq<Category>, id: int) {
    exists i :: 0 <= i < |cats| && cats[i].id == id
  }

  /** `name TEXT UNIQUE`. */
  predicate UniqueNames(cats: seq<Category>) {
    forall i, j :: 0 <= i < j < |cats| ==> cats[i].name != cats[j].name
  }

  /** `categories.id INTEGER PRIMARY KEY`. */
  predicate UniqueCategoryIds(cats: seq<Category>) {
    forall i, j :: 0 <= i < j < |cats| ==> cats[i].id != cats[j].id
  }

  /** `transactions.id INTEGER PRIMARY KEY`. */
  predicate UniqueTransactionIds(txns: seq<Transaction>) {
    forall i, j :: 0 <= i < j < |txns| ==> txns[i].id != txns[j].id
  }

  /** Both add paths refuse a non-positive amount. */
  predicate PositiveAmounts(txns: seq<Transaction>) {
    forall i :: 0 <= i < |txns| ==> txns[i].amount > 0.0
  }

  /** The foreign key: every transaction names an existing category. */
  predicate ReferencesResolve(l: Ledger) {
    forall i :: 0 <= i < |l.transactions| ==> HasCategoryId(l.categories, l.transactions[i].categoryId)
  }

  predicate Valid(l: Ledger) {
    && UniqueNames(l.categories)
    && UniqueCategoryIds(l.categories)
    && UniqueTransactionIds(l.transactions)
    && PositiveAmounts(l.transactions)
    && ReferencesResolve(l)
  }

  /** `SELECT id FROM categories WHERE name = ?`, first row: exact,
      case-sensitive comparison of the unstripped name. */
  function FindCategory(cats: seq<Category>, name: string): (r: Option<int>)
    ensures r.None? <==> !HasCategoryName(cats, name)
    ensures r.Some? ==> exists i :: 0 <= i < |cats| && cats[i] == Category(r.value, name)
  {
    if cats == [] then None
    else if cats[0].name == name then Some(cats[0].id)
    else
      var r := FindCategory(cats[1..], name);
      assert HasCategoryName(cats[1..], name) ==> HasCategoryName(cats, name);
      assert HasCategoryName(cats, name) ==> HasCategoryName(cats[1..], name) by {
        if HasCategoryName(cats, name) {
          var i :| 0 <= i < |cats| && cats[i].name == name;
          assert cats[1..][i - 1] == cats[i];
        }
      }
      r
  }

  /** The category name a transaction's `category_id` joins to. */
  function CategoryNameOf(cats: seq<Category>, id: int): (r: Option<string>)
    ensures r.None? <==> !HasCategoryId(cats, id)
    ensures r.Some? ==> exists i :: 0 <= i < |cats| && cats[i] == Category(id, r.value)
  {
    if cats == [] then None
    else if cats[0].id == id then Some(cats[0].name)
    else
      var r := CategoryNameOf(cats[1..], id);
      assert HasCategoryId(cats[1..], id) ==> HasCategoryId(cats, id);
      assert HasCategoryId(cats, id) ==> HasCategoryId(cats[1..], id) by {
        if HasCategoryId(cats, id) {
          var i :| 0 <= i < |cats| && cats[i].id == id;
          assert cats[1..][i - 1] == cats[i];
        }
      }
      r
  }

  /** With unique names, the lookup finds the one category of that name. */
  lemma {:induction false} FindCategoryUnique(cats: seq<Category>, i: int)
    requires UniqueNames(cats)
    requires 0 <= i < |cats|
    ensures FindCategory(cats, cats[i].name) == Some(cats[i].id)
  {
    if i > 0 {
      assert cats[0].name != cats[i].name;
      assert UniqueNames(cats[1..]) by {
        forall a, b | 0 <= a < b < |cats| - 1 ensures cats[1..][a].name != cats[1..][b].name {
          assert cats[1..][a] == cats[a + 1] && cats[1..][b] == cats[b + 1];
        }
      }
      assert cats[1..][i - 1] == cats[i];
      FindCategoryUnique(cats[1..], i - 1);
    }
  }

  /** With unique ids, the join finds the one category of that id. */
  lemma {:induction false} CategoryNameOfUnique(cats: seq<Category>, i: int)
    requires UniqueCategoryIds(cats)
    requires 0 <= i < |cats|
    ensures CategoryNameOf(cats, cats[i].id) == Some(cats[i].name)
  {
    if i > 0 {
      assert cats[0].id != cats[i].id;
      assert UniqueCategoryIds(cats[1..]) by {
        forall a, b | 0 <= a < b < |cats| - 1 ensures cats[1..][a].id != cats[1..][b].id {
          assert cats[1..][a] == cats[a + 1] && cats[1..][b] == cats[b + 1];
        }
      }
      assert cats[1..][i - 1] == cats[i];
      CategoryNameOfUnique(cats[1..], i - 1);
    }
  }

  /** Appending categories does not change the lookup of a name already present. */
  lemma {:induction false} FindCategoryExtend(cats: seq<Category>, more: seq<Category>, name: string)
    requires HasCategoryName(cats, name)
    ensures FindCategory(cats + more, name) == FindCategory(cats, name)
  {
    if cats[0].name != name {
      var i :| 0 <= i < |cats| && cats[i].name == name;
      assert cats[1..][i - 1] == cats[i];
      assert (cats + more)[1..] == cats[1..] + more;
      FindCategoryExtend(cats[1..], more, name);
    }
  }

  /** Appending categories does not change the join of an id already present. */
  lemma {:induction false} CategoryNameOfExtend(cats: seq<Category>, more: seq<Category>, id: int)
    requires HasCategoryId(cats, id)
    ensures CategoryNameOf(cats + more, id) == CategoryNameOf(cats, id)
  {
    if cats[0].id != id {
      var i :| 0 <= i < |cats| && cats[i].id == id;
      assert cats[1..][i - 1] == cats[i];
      assert (cats + more)[1..] == cats[1..] + more;
      CategoryNameOfExtend(cats[1..], more, id);
    }
  }

  /** `max(id)` over an id column, 0 when the table is empty. */
  function MaxId(ids: seq<int>): (m: int)
    ensures forall i :: 0 <= i < |ids| ==> ids[i] <= m
    ensures ids == [] ==> m == 0
    ensures ids != [] ==> exists i :: 0 <= i < |ids| && ids[i] == m
  {
    if ids == [] then 0
    else
      var m := MaxId(ids[..|ids| - 1]);
      var last := ids[|ids| - 1];
      if |ids| == 1 || last > m then last else m
  }

  /** The rowid SQLite gives a new row of a table without AUTOINCREMENT:
      one more than the largest in use, 1 for an empty table. */
  function NextId(ids: seq<int>): (id: int)
    ensures forall i :: 0 <= i < |ids| ==> ids[i] < id
    ensures ids == [] ==> id == 1
  {
    MaxId(ids) + 1
  }

  function NextCategoryId(cats: seq<Category>): (id: int)
    ensures forall i :: 0 <= i < |cats| ==> cats[i].id < id
    ensures cats == [] ==> id == 1
  {
    var ids := seq(|cats|, i requires 0 <= i < |cats| => cats[i].id);
    assert forall i :: 0 <= i < |cats| ==> ids[i] == cats[i].id;
    NextId(ids)
  }

  function NextTransactionId(txns: seq<Transaction>): (id: int)
    ensures forall i :: 0 <= i < |txns| ==> txns[i].id < id
    ensures txns == [] ==> id == 1
  {
    var ids := seq(|txns|, i requires 0 <= i < |txns| => txns[i].id);
    assert forall i :: 0 <= i < |txns| ==> ids[i] == txns[i].id;
    NextId(ids)
  }

  /** Resolve-or-create: reuse the id of the category with exactly this name,
      or append a new category with a fresh id. Returns the table and the id. */
  function ResolveOrCreate(cats: seq<Category>, name: string): (r: (seq<Category>, int))
    ensures HasCategoryName(cats, name) ==> r.0 == cats
    ensures !HasCategoryName(cats, name) ==>
      && r.0 == cats + [Category(r.1, name)]
      && forall i :: 0 <= i < |cats| ==> cats[i].id != r.1
    ensures exists i :: 0 <= i < |r.0| && r.0[i] == Category(r.1, name)
    ensures FindCategory(r.0, name) == Some(r.1)
  {
    match FindCategory(cats, name)
    case Some(id) => (cats, id)
    case None =>
      var id := NextCategoryId(cats);
      var cats' := cats + [Category(id, name)];
      assert FindCategory(cats', name) == Some(id) by {
        FindCategoryLast(cats, Category(id, name));
      }
      (cats', id)
  }

  lemma {:induction false} FindCategoryLast(cats: seq<Category>, c: Category)
    requires !HasCategoryName(cats, c.name)
    ensures FindCategory(cats + [c], c.name) == Some(c.id)
  {
    if cats != [] {
      assert (cats + [c])[1..] == cats[1..] + [c];
      FindCategoryLast(cats[1..], c);
    }
  }

  lemma {:induction false} CategoryNameOfLast(cats: seq<Category>, c: Category)
    requires !HasCategoryId(cats, c.id)
    ensures CategoryNameOf(cats + [c], c.id) == Some(c.name)
  {
    if cats != [] {
      assert (cats + [c])[1..] == cats[1..] + [c];
      CategoryNameOfLast(cats[1..], c);
    }
  }

  /** Exactly one transaction has been appended to `l`, carrying the given
      fields and a category id that both lookups tie to `category`; the old
      rows are untouched, and the category table grew by one row exactly when
      the name was new. */
  predicate AppendedOne(l: Ledger, l': Ledger, amount: real, date: string, category: string,
                        description: string, kind: TxnType)
  {
    && |l'.transactions| == |l.transactions| + 1
    && l'.transactions[..|l.transactions|] == l.transactions
    && var t := l'.transactions[|l.transactions|];
    && t.amount == amount && t.date == date && t.description == description && t.kind == kind
    && CategoryNameOf(l'.categories, t.categoryId) == Some(category)
    && FindCategory(l'.categories, category) == Some(t.categoryId)
    && (forall i :: 0 <= i < |l.transactions| ==> l.transactions[i].id != t.id)
    && (HasCategoryName(l.categories, category) ==> l'.categories == l.categories)
    && (!HasCategoryName(l.categories, category) ==>
          && |l'.categories| == |l.categories| + 1
          && l'.categories[..|l.categories|] == l.categories
          && l'.categories[|l.categories|].name == category)
  }

  /** The accept branch both add paths share: resolve or create the category,
      then insert one transaction with the next rowid. */
  function Insert(l: Ledger, amount: real, date: string, category: string,
                  description: string, kind: TxnType): (l': Ledger)
    ensures Valid(l) ==> AppendedOne(l, l', amount, date, category, description, kind)
    ensures Valid(l) && amount > 0.0 ==> Valid(l')
  {
    var (cats, cid) := ResolveOrCreate(l.categories, category);
    var t := Transaction(NextTransactionId(l.transactions), amount, date, cid, description, kind);
    var l' := Ledger(cats, l.transactions + [t]);
    assert Valid(l) ==> CategoryNameOf(cats, cid) == Some(category) && (amount > 0.0 ==> Valid(l')) by {
      if Valid(l) {
        ResolveKeepsTable(l.categories, category);
        InsertKeepsValid(l, cats, cid, t);
      }
    }
    l'
  }

  /** Resolve-or-create keeps the table's uniqueness constraints, keeps every
      existing id, and ties the returned id back to the name. */
  lemma ResolveKeepsTable(cats: seq<Category>, name: string)
    requires UniqueNames(cats) && UniqueCategoryIds(cats)
    ensures var (cats', cid) := ResolveOrCreate(cats, name);
      && UniqueNames(cats') && UniqueCategoryIds(cats')
      && (forall id :: HasCategoryId(cats, id) ==> HasCategoryId(cats', id))
      && CategoryNameOf(cats', cid) == Some(name)
  {
    var (cats', cid) := ResolveOrCreate(cats, name);
    if HasCategoryName(cats, name) {
      var i :| 0 <= i < |cats'| && cats'[i] == Category(cid, name);
      CategoryNameOfUnique(cats', i);
    } else {
      AppendCategoryKeepsTable(cats, Category(cid, name));
    }
  }

  /** Appending a category with a new name and a fresh id keeps both
      uniqueness constraints and every existing id, and the new id looks up
      the new name. */
  lemma AppendCategoryKeepsTable(cats: seq<Category>, c: Category)
    requires UniqueNames(cats) && UniqueCategoryIds(cats)
    requires !HasCategoryName(cats, c.name)
    requires forall i :: 0 <= i < |cats| ==> cats[i].id != c.id
    ensures UniqueNames(cats + [c]) && UniqueCategoryIds(cats + [c])
    ensures forall id :: HasCategoryId(cats, id) ==> HasCategoryId(cats + [c], id)
    ensures CategoryNameOf(cats + [c], c.id) == Some(c.name)
  {
    var cats' := cats + [c];
    assert !HasCategoryId(cats, c.id);
    CategoryNameOfLast(cats, c);
    forall id | HasCategoryId(cats, id) ensures HasCategoryId(cats', id) {
      var j :| 0 <= j < |cats| && cats[j].id == id;
      assert cats'[j] == cats[j];
    }
  }

  lemma InsertKeepsValid(l: Ledger, cats: seq<Category>, cid: int, t: Transaction)
    requires Valid(l)
    requires UniqueNames(cats) && UniqueCategoryIds(cats)
    requires forall id :: HasCategoryId(l.categories, id) ==> HasCategoryId(cats, id)
    requires HasCategoryId(cats, cid)
    requires t.categoryId == cid && t.id == NextTransactionId(l.transactions)
    ensures t.amount > 0.0 ==> Valid(Ledger(cats, l.transactions + [t]))
  {
    var txns := l.transactions + [t];
    forall i | 0 <= i < |txns|
      ensures HasCategoryId(cats, txns[i].categoryId)
    {
      if i < |l.transactions| {
        assert txns[i] == l.transactions[i];
      }
    }
  }

  /** Resolving the same name twice reuses the first resolution: the second
      call returns the same table and the same id. */
  lemma ResolveOrCreateIdempotent(cats: seq<Category>, name: string)
    ensures var (cats', id) := ResolveOrCreate(cats, name);
            ResolveOrCreate(cats', name) == (cats', id)
  {
    var (cats', id) := ResolveOrCreate(cats, name);
    assert HasCategoryName(cats', name);
  }
}
