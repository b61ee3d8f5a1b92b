/**
 * `POST /credit-card`: add a credit card on one of the caller's own
 * accounts, with closing and due days between 1 and 30.
 */
module CreateCreditCard {
  import opened Common
  import opened Entities
  import opened Store

  /** `z.coerce.number().int().min(1).max(30)` on both days. */
  predicate DaysInRange(closingDay: int, dueDay: int) {
    1 <= closingDay <= 30 && 1 <= dueDay <= 30
  }

  /** `findFirst({ where: { id: accountId, userId } })`: the account exists and is the caller's. */
  predicate OwnsAccount(accounts: seq<Account>, userId: Id, accountId: Id) {
    exists i :: 0 <= i < |accounts| && accounts[i].id == accountId && accounts[i].userId == userId
  }

  function FindOwnedAccount(accounts: seq<Account>, userId: Id, accountId: Id): (r: Option<nat>)
    ensures r.Some? ==> r.value < |accounts| && accounts[r.value].id == accountId && accounts[r.value].userId == userId
    ensures r.None? <==> !OwnsAccount(accounts, userId, accountId)
  {
    FindFirst(accounts, (a: Account) => a.id == accountId && a.userId == userId)
  }

  /** The stored card: the request's fields, owned by the caller, its available limit starting at the full limit. */
  function NewCard(newId: Id, userId: Id, accountId: Id, name: string, closingDay: int, dueDay: int, limit: int)
    : (c: CreditCard)
    ensures c.id == newId && c.userId == userId && c.accountId == accountId && c.name == name
    ensures c.closingDay == closingDay && c.dueDay == dueDay && c.limit == limit && c.currentLimit == limit
  {
    CreditCard(newId, userId, accountId, name, closingDay, dueDay, limit, limit)
  }

  /** The status and the cards table after the request: 400 before 409 before 201. */
  function Issue(s: Snapshot, userId: Id, accountId: Id, name: string, closingDay: int, dueDay: int, limit: int,
                 newId: Id): (r: (nat, seq<CreditCard>))
    ensures r.0 in {Created, BadRequest, Conflict}
    ensures r.0 == BadRequest <==> !DaysInRange(closingDay, dueDay)
    ensures r.0 == Conflict <==> DaysInRange(closingDay, dueDay) && !OwnsAccount(s.accounts, userId, accountId)
    ensures r.0 != Created ==> r.1 == s.cards
    ensures r.0 == Created ==> r.1 == s.cards + [NewCard(newId, userId, accountId, name, closingDay, dueDay, limit)]
  {
    if !DaysInRange(closingDay, dueDay) then (BadRequest, s.cards)
    else if FindOwnedAccount(s.accounts, userId, accountId).None? then (Conflict, s.cards)
    else (Created, s.cards + [NewCard(newId, userId, accountId, name, closingDay, dueDay, limit)])
  }

  /**
   * A new card is found by its owner, as the invoice handlers look cards
   * up, and by nobody else.
   */
  lemma IssuedCardIsOwnersOnly(s: Snapshot, userId: Id, other: Id, accountId: Id, name: string, closingDay: int,
                               dueDay: int, limit: int, newId: Id)
    requires Issue(s, userId, accountId, name, closingDay, dueDay, limit, newId).0 == Created
    requires forall c :: c in s.cards ==> c.id != newId
    requires other != userId
    ensures var after := Issue(s, userId, accountId, name, closingDay, dueDay, limit, newId).1;
            && FindOwnedCard(after, newId, userId) == Some(|s.cards|)
            && FindOwnedCard(after, newId, other).None?
  {
    var after := Issue(s, userId, accountId, name, closingDay, dueDay, limit, newId).1;
    assert forall j :: 0 <= j < |s.cards| ==> after[j] == s.cards[j];
    assert forall j :: 0 <= j < |s.cards| ==> after[j].id != newId by {
      forall j | 0 <= j < |s.cards| ensures after[j].id != newId {
        assert s.cards[j] in s.cards;
      }
    }
  }

  /** The handler on the store; `newId` stands for the generated uuid. */
  method CreateCreditCard(db: Ledger, userId: Id, accountId: Id, name: string, closingDay: int, dueDay: int,
                          limit: int, newId: Id) returns (status: nat)
    requires db.Valid()
    requires forall c :: c in db.cards ==> c.id != newId
    modifies db
    ensures db.Valid()
    ensures (status, db.cards) == Issue(old(db.State()), userId, accountId, name, closingDay, dueDay, limit, newId)
    ensures db.State() == old(db.State()).(cards := db.cards)
  {
    if !DaysInRange(closingDay, dueDay) {
      return BadRequest;
    }
    if FindOwnedAccount(db.accounts, userId, accountId).None? {
      return Conflict;
    }
    ghost var before := db.cards;
    db.cards := db.cards + [NewCard(newId, userId, accountId, name, closingDay, dueDay, limit)];
    assert DistinctCardIds(db.cards) by {
      forall i, j | 0 <= i < j < |db.cards| ensures db.cards[i].id != db.cards[j].id {
        if j == |before| {
          assert before[i] in before;
        }
      }
    }
    status := Created;
  }
}
