/** The reset script: delete every transaction, then every category. */
module Reset {
  import opened Store
  import opened Query
  import opened Aggregation

  /** `DELETE FROM transactions`. */
  function ClearTransactions(l: Ledger): (r: Ledger)
    ensures r.transactions == [] && r.categories == l.categories
    ensures Valid(l) ==> Valid(r)
  {
    Ledger(l.categories, [])
  }

  /** `DELETE FROM categories`. */
  function ClearCategories(l: Ledger): (r: Ledger)
    ensures r.categories == [] && r.transactions == l.transactions
    ensures ReferencesResolve(r) <==> l.transactions == []
  {
    assert l.transactions != [] ==> !HasCategoryId([], l.transactions[0].categoryId);
    Ledger([], l.transactions)
  }

  /** `delete_table_data`: transactions first, then categories. */
  function ResetLedger(l: Ledger): (r: Ledger)
    ensures r == EmptyLedger
    ensures Valid(r)
  {
    ClearCategories(ClearTransactions(l))
  }

  /** Every state the reset passes through keeps each reference resolvable,
      and it ends with both tables empty. */
  lemma ResetStatesConsistent(l: Ledger)
    requires Valid(l)
    ensures Valid(ClearTransactions(l))
    ensures ClearTransactions(l).categories == l.categories
    ensures Valid(ResetLedger(l))
    ensures ResetLedger(l).transactions == [] && ResetLedger(l).categories == []
  {
  }

  /** Deleting in the other order would pass through a state where a
      transaction names a category that no longer exists. */
  lemma OtherOrderDangles(l: Ledger)
    requires l.transactions != []
    ensures !ReferencesResolve(ClearCategories(l))
  {
    assert !HasCategoryId([], l.transactions[0].categoryId);
  }

  /** After a reset every view is empty, the summary is all zeros and both
      reports are empty, whatever the ledger held before. */
  lemma ResetEmptiesQueries(l: Ledger, f: Filter)
    ensures View(ResetLedger(l), f) == []
    ensures FinancialSummary(ResetLedger(l)) == Summary(0.0, 0.0, 0.0)
    ensures TypeReport(ResetLedger(l)) == map[] && CategoryReport(ResetLedger(l)) == map[]
    ensures Total(ResetLedger(l).transactions, Income) == 0.0
    ensures Total(ResetLedger(l).transactions, Expense) == 0.0
    ensures Balanced(ResetLedger(l))
  {
    assert ResetLedger(l) == EmptyLedger;
    EmptySummary();
  }

  /** After a reset, the next category and transaction both get rowid 1. */
  lemma ResetRestartsIds(l: Ledger)
    ensures NextCategoryId(ResetLedger(l).categories) == 1
    ensures NextTransactionId(ResetLedger(l).transactions) == 1
  {
  }
}
