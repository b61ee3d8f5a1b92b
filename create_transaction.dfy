/**
 * `POST /transactions`: record one income or expense on an account. The
 * user and the account must both exist; whether the account belongs to
 * the user is not checked.
 */
module CreateTransaction {
  import opened Common
  import opened Calendar
  import opened Entities
  import opened Store
  import MonthBalance

  /** The types the request body accepts (`z.enum(['EXPENSE', 'INCOME'])`). */
  predicate Recordable(kind: TxKind) {
    kind == Income || kind == Expense
  }

  /** The stored row: the request's fields; the flags keep their column defaults. */
  function NewRow(newId: Id, userId: Id, accountId: Id, title: string, description: Option<string>, kind: TxKind,
                  amount: int, dueDate: DateTime, effectiveDate: Option<DateTime>): (t: Transaction)
    ensures t.id == newId && t.userId == userId && t.accountId == accountId
    ensures t.title == Some(title) && t.description == description && t.kind == kind
    ensures t.amount == amount && t.dueDate == dueDate && t.effectiveDate == effectiveDate
    ensures !t.effectived && !t.isFixed && t.creditCardId.None? && t.transferId.None?
  {
    Transaction(newId, userId, accountId, None, None, None, Some(title), description, None, amount, kind,
                dueDate, None, effectiveDate, false, false, None, None)
  }

  /** The status and the transactions table after the request. */
  function Record(s: Snapshot, userId: Id, accountId: Id, title: string, description: Option<string>, kind: TxKind,
                  amount: int, dueDate: DateTime, effectiveDate: Option<DateTime>, newId: Id)
    : (r: (nat, seq<Transaction>))
    ensures r.0 in {Created, BadRequest, Conflict}
    ensures r.0 == BadRequest <==> !Recordable(kind)
    ensures r.0 == Conflict <==>
              Recordable(kind) && (userId !in s.users || forall a :: a in s.accounts ==> a.id != accountId)
    ensures r.0 != Created ==> r.1 == s.transactions
    ensures r.0 == Created ==>
              r.1 == s.transactions + [NewRow(newId, userId, accountId, title, description, kind, amount, dueDate, effectiveDate)]
  {
    if !Recordable(kind) then (BadRequest, s.transactions)
    else if userId !in s.users || FindAccount(s.accounts, accountId).None? then (Conflict, s.transactions)
    else (Created, s.transactions + [NewRow(newId, userId, accountId, title, description, kind, amount, dueDate, effectiveDate)])
  }

  /** Any existing account is accepted, also one that belongs to another user. */
  lemma AccountOwnershipNotChecked(s: Snapshot, userId: Id, k: nat, title: string, kind: TxKind,
                                   amount: int, dueDate: DateTime, newId: Id)
    requires Recordable(kind) && userId in s.users
    requires k < |s.accounts| && s.accounts[k].userId != userId
    ensures Record(s, userId, s.accounts[k].id, title, None, kind, amount, dueDate, None, newId).0 == Created
  {
    assert s.accounts[k] in s.accounts;
  }

  /**
   * A recorded income or expense shows in its month's balance: the total
   * of its type grows by its amount in any window holding its due date,
   * and nothing else moves.
   */
  lemma RecordedRowCountsInMonthBalance(s: Snapshot, userId: Id, accountId: Id, title: string,
                                        description: Option<string>, kind: TxKind, amount: int, dueDate: DateTime,
                                        effectiveDate: Option<DateTime>, newId: Id, w: MonthBalance.Window)
    requires Record(s, userId, accountId, title, description, kind, amount, dueDate, effectiveDate, newId).0 == Created
    ensures var after := Record(s, userId, accountId, title, description, kind, amount, dueDate, effectiveDate, newId).1;
            var before := MonthBalance.WindowTotals(s.transactions, userId, w);
            var now := MonthBalance.WindowTotals(after, userId, w);
            var grows := if MonthBalance.InWindow(dueDate, w) then amount else 0;
            && now.totalIncome == before.totalIncome + (if kind == Income then grows else 0)
            && now.totalExpense == before.totalExpense + (if kind == Expense then grows else 0)
  {
    var after := Record(s, userId, accountId, title, description, kind, amount, dueDate, effectiveDate, newId).1;
    assert after[..|s.transactions|] == s.transactions;
  }

  /** The handler on the store. */
  method CreateTransaction(db: Ledger, userId: Id, accountId: Id, title: string, description: Option<string>,
                           kind: TxKind, amount: int, dueDate: DateTime, effectiveDate: Option<DateTime>, newId: Id)
    returns (status: nat)
    requires db.Valid()
    requires forall t :: t in db.transactions ==> t.id != newId
    modifies db
    ensures db.Valid()
    ensures (status, db.transactions)
            == Record(old(db.State()), userId, accountId, title, description, kind, amount, dueDate, effectiveDate, newId)
    ensures db.State() == old(db.State()).(transactions := db.transactions)
  {
    if !Recordable(kind) {
      return BadRequest;
    }
    if userId !in db.users || FindAccount(db.accounts, accountId).None? {
      return Conflict;
    }
    ghost var before := db.transactions;
    db.transactions := db.transactions + [NewRow(newId, userId, accountId, title, description, kind, amount, dueDate, effectiveDate)];
    assert DistinctTransactionIds(db.transactions) by {
      forall i, j | 0 <= i < j < |db.transactions| ensures db.transactions[i].id != db.transactions[j].id {
        if j == |before| {
          assert before[i] in before;
        }
      }
    }
    status := Created;
  }
}
