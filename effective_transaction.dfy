/**
 * `PATCH /transactions/:transactionId/effective`: flip the effectived flag
 * of one of the caller's incomes or expenses, optionally moving its due
 * date.
 */
module EffectiveTransaction {
  import opened Common
  import opened Calendar
  import opened Entities
  import opened Store

  /** The rows the handler may toggle: the caller's INCOME or EXPENSE with this id. */
  predicate Toggleable(t: Transaction, userId: Id, id: Id) {
    t.userId == userId && t.id == id && (t.kind == Income || t.kind == Expense)
  }

  /** The row of the caller's income or expense with this id (`findFirst`). */
  function FindToggleable(txs: seq<Transaction>, userId: Id, id: Id): (r: Option<nat>)
    ensures r.Some? ==> r.value < |txs| && Toggleable(txs[r.value], userId, id)
    ensures r.None? <==> forall i :: 0 <= i < |txs| ==> !Toggleable(txs[i], userId, id)
  {
    FindFirst(txs, (t: Transaction) => Toggleable(t, userId, id))
  }

  /** The row after the update: the flag negated, the due date replaced when one is given. */
  function Toggle(t: Transaction, dueDate: Option<DateTime>): (r: Transaction)
    ensures r.effectived == !t.effectived
    ensures r.dueDate == (if dueDate.Some? then dueDate.value else t.dueDate)
    ensures r.(effectived := t.effectived, dueDate := t.dueDate) == t
  {
    t.(effectived := !t.effectived, dueDate := if dueDate.Some? then dueDate.value else t.dueDate)
  }

  /** The status and the transactions table after the request: 404 and no change, or 204 and the row toggled. */
  function ToggleEffectived(txs: seq<Transaction>, userId: Id, id: Id, dueDate: Option<DateTime>): (r: (nat, seq<Transaction>))
    ensures r.0 == NotFound <==> forall i :: 0 <= i < |txs| ==> !Toggleable(txs[i], userId, id)
    ensures r.0 == NotFound || r.0 == NoContent
    ensures r.0 == NotFound ==> r.1 == txs
  {
    match FindToggleable(txs, userId, id)
    case None => (NotFound, txs)
    case Some(k) => (NoContent, txs[k := Toggle(txs[k], dueDate)])
  }

  /** Only the toggled row changes; every other row, and every other field of it, keeps its value. */
  lemma ToggleTouchesOneRow(txs: seq<Transaction>, userId: Id, id: Id, dueDate: Option<DateTime>)
    requires DistinctTransactionIds(txs)
    ensures var r := ToggleEffectived(txs, userId, id, dueDate);
            && |r.1| == |txs|
            && forall i :: 0 <= i < |txs| ==>
                 if Toggleable(txs[i], userId, id) then r.1[i] == Toggle(txs[i], dueDate) else r.1[i] == txs[i]
  {
    match FindToggleable(txs, userId, id)
    case None =>
    case Some(k) =>
      forall i | 0 <= i < |txs| && Toggleable(txs[i], userId, id) ensures i == k {
        assert txs[i].id == txs[k].id;
      }
  }

  /** Transfers, credit charges, other users' rows and unknown ids answer 404. */
  lemma OnlyOwnIncomesAndExpenses(txs: seq<Transaction>, userId: Id, id: Id, dueDate: Option<DateTime>)
    requires forall i :: 0 <= i < |txs| && txs[i].id == id ==>
               txs[i].userId != userId || txs[i].kind in {TransferIn, TransferOut, Credit}
    ensures ToggleEffectived(txs, userId, id, dueDate) == (NotFound, txs)
  {
  }

  /** Toggling twice without a due date gives back the original table. */
  lemma ToggleTwiceRestores(txs: seq<Transaction>, userId: Id, id: Id)
    requires ToggleEffectived(txs, userId, id, None).0 == NoContent
    ensures var once := ToggleEffectived(txs, userId, id, None).1;
            ToggleEffectived(once, userId, id, None) == (NoContent, txs)
  {
    var k := FindToggleable(txs, userId, id).value;
    var once := txs[k := Toggle(txs[k], None)];
    assert FindToggleable(once, userId, id) == Some(k) by {
      assert forall j :: 0 <= j < k ==> once[j] == txs[j];
      assert Toggleable(once[k], userId, id);
    }
    assert once[k := Toggle(once[k], None)] == txs;
  }

  /** The handler on the store. */
  method EffectiveTransaction(db: Ledger, userId: Id, id: Id, dueDate: Option<DateTime>) returns (status: nat)
    requires db.Valid()
    modifies db
    ensures db.Valid()
    ensures (status, db.transactions) == ToggleEffectived(old(db.transactions), userId, id, dueDate)
    ensures db.State() == old(db.State()).(transactions := db.transactions)
  {
    var found := FindToggleable(db.transactions, userId, id);
    if found.None? {
      return NotFound;
    }
    var k := found.value;
    ghost var before := db.transactions;
    db.transactions := db.transactions[k := Toggle(db.transactions[k], dueDate)];
    assert forall j :: 0 <= j < |db.transactions| ==> db.transactions[j].id == before[j].id;
    status := NoContent;
  }
}
