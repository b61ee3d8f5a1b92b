/**
 * The in-memory store that stands in for the relational database: the
 * set of registered users and the accounts, transactions, categories and
 * credit-card tables, each a sequence of rows in insertion order.
 */
module Store {
  import opened Common
  import opened Entities

  /** The contents of every table at one moment. */
  datatype Snapshot = Snapshot(
    users: set<Id>,
    accounts: seq<Account>,
    transactions: seq<Transaction>,
    categories: seq<Category>,
    cards: seq<CreditCard>)

  predicate DistinctAccountIds(s: seq<Account>) {
    forall i, j :: 0 <= i < j < |s| ==> s[i].id != s[j].id
  }

  predicate DistinctTransactionIds(s: seq<Transaction>) {
    forall i, j :: 0 <= i < j < |s| ==> s[i].id != s[j].id
  }

  predicate DistinctCategoryIds(s: seq<Category>) {
    forall i, j :: 0 <= i < j < |s| ==> s[i].id != s[j].id
  }

  predicate DistinctCardIds(s: seq<CreditCard>) {
    forall i, j :: 0 <= i < j < |s| ==> s[i].id != s[j].id
  }

  /** Two categories of one user never share a name and a type. */
  predicate NoOwnedDuplicates(s: seq<Category>) {
    forall i, j :: 0 <= i < j < |s| && s[i].userId.Some? ==>
      !(s[i].userId == s[j].userId && s[i].name == s[j].name && s[i].kind == s[j].kind)
  }

  /** Primary keys are unique in every table, and user categories are unique per (user, name, type). */
  predicate ValidSnapshot(s: Snapshot) {
    && DistinctAccountIds(s.accounts)
    && DistinctTransactionIds(s.transactions)
    && DistinctCategoryIds(s.categories)
    && DistinctCardIds(s.cards)
    && NoOwnedDuplicates(s.categories)
  }

  /** The index of the first element satisfying `p` (`findFirst`), if any. */
  function FindFirst<T>(s: seq<T>, p: T -> bool): (r: Option<nat>)
    ensures r.Some? ==> r.value < |s| && p(s[r.value])
    ensures r.Some? ==> forall j :: 0 <= j < r.value ==> !p(s[j])
    ensures r.None? <==> forall j :: 0 <= j < |s| ==> !p(s[j])
  {
    if s == [] then None
    else if p(s[0]) then Some(0)
    else match FindFirst(s[1..], p)
      case None => None
      case Some(k) => Some(k + 1)
  }

  /** The row of the account with this id. */
  function FindAccount(s: seq<Account>, id: Id): (r: Option<nat>)
    ensures r.Some? ==> r.value < |s| && s[r.value].id == id
    ensures r.None? <==> forall a :: a in s ==> a.id != id
  {
    FindFirst(s, (a: Account) => a.id == id)
  }

  /** The row of the card with this id owned by this user (`where: { id, userId }`). */
  function FindOwnedCard(s: seq<CreditCard>, id: Id, userId: Id): (r: Option<nat>)
    ensures r.Some? ==> r.value < |s| && s[r.value].id == id && s[r.value].userId == userId
    ensures r.Some? ==> forall j :: 0 <= j < r.value ==> !(s[j].id == id && s[j].userId == userId)
    ensures r.None? <==> forall c :: c in s ==> !(c.id == id && c.userId == userId)
  {
    FindFirst(s, (c: CreditCard) => c.id == id && c.userId == userId)
  }

  /** Updating the found card in place, keeping its id and owner, leaves it the card found. */
  lemma FindOwnedCardAfterUpdate(s: seq<CreditCard>, id: Id, userId: Id, k: nat, c: CreditCard)
    requires FindOwnedCard(s, id, userId) == Some(k)
    requires c.id == s[k].id && c.userId == s[k].userId
    ensures FindOwnedCard(s[k := c], id, userId) == Some(k)
  {
    var updated := s[k := c];
    assert updated[k] in updated;
    assert forall j :: 0 <= j < k ==> updated[j] == s[j];
  }

  class Ledger {
    var users: set<Id>
    var accounts: seq<Account>
    var transactions: seq<Transaction>
    var categories: seq<Category>
    var cards: seq<CreditCard>

    function State(): Snapshot
      reads this
    {
      Snapshot(users, accounts, transactions, categories, cards)
    }

    ghost predicate Valid()
      reads this
    {
      ValidSnapshot(State())
    }

    /** A store holding the registered users and the seeded global categories. */
    constructor (registered: set<Id>, defaults: seq<Category>)
      requires DistinctCategoryIds(defaults)
      requires forall c :: c in defaults ==> c.userId.None?
      ensures Valid()
      ensures State() == Snapshot(registered, [], [], defaults, [])
    {
      users := registered;
      accounts := [];
      transactions := [];
      categories := defaults;
      cards := [];
    }
  }
}
