/**
 * `POST /accounts`: open an account of a bank or wallet type with an
 * initial balance for an existing user.
 */
module CreateAccount {
  import opened Common
  import opened Calendar
  import opened Entities
  import opened Store
  import GetTotalAmount

  /** The status and the accounts table after the request. */
  function Open(s: Snapshot, userId: Id, name: string, kind: AccountKind, initialBalance: int, newId: Id)
    : (r: (nat, seq<Account>))
    ensures r.0 == Created || r.0 == Conflict
    ensures r.0 == Conflict <==> userId !in s.users
    ensures r.0 == Conflict ==> r.1 == s.accounts
    ensures r.0 == Created ==> r.1 == s.accounts + [Account(newId, userId, name, kind, initialBalance)]
  {
    if userId !in s.users then (Conflict, s.accounts)
    else (Created, s.accounts + [Account(newId, userId, name, kind, initialBalance)])
  }

  /**
   * A new account adds exactly its initial balance to its owner's total in
   * the total-amount view, for every month, and nothing to other users'.
   */
  lemma NewAccountAddsInitialBalance(s: Snapshot, userId: Id, other: Id, name: string, kind: AccountKind,
                                     initialBalance: int, newId: Id, monthEnd: DateTime, currentOrPast: bool)
    requires Open(s, userId, name, kind, initialBalance, newId).0 == Created
    requires forall i :: 0 <= i < |s.transactions| ==> s.transactions[i].accountId != newId
    requires other != userId
    ensures var after := Open(s, userId, name, kind, initialBalance, newId).1;
            && GetTotalAmount.TotalOfAccounts(after, userId, s.transactions, monthEnd, currentOrPast)
               == GetTotalAmount.TotalOfAccounts(s.accounts, userId, s.transactions, monthEnd, currentOrPast) + initialBalance
            && GetTotalAmount.TotalOfAccounts(after, other, s.transactions, monthEnd, currentOrPast)
               == GetTotalAmount.TotalOfAccounts(s.accounts, other, s.transactions, monthEnd, currentOrPast)
  {
    var after := Open(s, userId, name, kind, initialBalance, newId).1;
    assert after[..|s.accounts|] == s.accounts;
  }

  /** The handler on the store; `newId` stands for the generated uuid. */
  method CreateAccount(db: Ledger, userId: Id, name: string, kind: AccountKind, initialBalance: int, newId: Id)
    returns (status: nat)
    requires db.Valid()
    requires forall a :: a in db.accounts ==> a.id != newId
    modifies db
    ensures db.Valid()
    ensures (status, db.accounts) == Open(old(db.State()), userId, name, kind, initialBalance, newId)
    ensures db.State() == old(db.State()).(accounts := db.accounts)
  {
    if userId !in db.users {
      return Conflict;
    }
    ghost var before := db.accounts;
    db.accounts := db.accounts + [Account(newId, userId, name, kind, initialBalance)];
    assert DistinctAccountIds(db.accounts) by {
      forall i, j | 0 <= i < j < |db.accounts| ensures db.accounts[i].id != db.accounts[j].id {
        if j == |before| {
          assert before[i] in before;
        }
      }
    }
    status := Created;
  }
}
