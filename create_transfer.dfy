/**
 * `POST /transfer`: move an amount between two accounts by recording a
 * pair of mirrored TRANSFER_OUT / TRANSFER_IN transactions that share one
 * transfer id.
 */
module CreateTransfer {
  import opened Common
  import opened Calendar
  import opened Entities
  import opened Store
  import GetTotalAmount

  const OutDescription: string := "Transferência saída"
  const InDescription: string := "Transferência entrada"

  /** The number of account rows whose id is one of the two requested (`findMany({ where: { id: { in: [...] } } })`). */
  function CountRequested(accounts: seq<Account>, src: Id, tgt: Id): (n: nat)
    ensures n <= |accounts|
  {
    if accounts == [] then 0
    else
      var a := accounts[|accounts| - 1];
      CountRequested(accounts[..|accounts| - 1], src, tgt) + (if a.id == src || a.id == tgt then 1 else 0)
  }

  /** Whether some account row has this id. */
  predicate AccountExists(accounts: seq<Account>, id: Id) {
    exists i :: 0 <= i < |accounts| && accounts[i].id == id
  }

  /**
   * With unique account ids, two rows match exactly when both accounts
   * exist and they are different accounts: a transfer from an account to
   * itself finds one row and is refused.
   */
  lemma {:induction false} TwoRowsIffTwoDistinctAccounts(accounts: seq<Account>, src: Id, tgt: Id)
    requires DistinctAccountIds(accounts)
    ensures CountRequested(accounts, src, tgt) == 2
            <==> src != tgt && AccountExists(accounts, src) && AccountExists(accounts, tgt)
  {
    CountBounds(accounts, src, tgt);
  }

  /** Under unique ids the count is the number of distinct requested ids that exist. */
  lemma {:induction false} CountBounds(accounts: seq<Account>, src: Id, tgt: Id)
    requires DistinctAccountIds(accounts)
    ensures CountRequested(accounts, src, tgt)
            == (if AccountExists(accounts, src) then 1 else 0)
               + (if src != tgt && AccountExists(accounts, tgt) then 1 else 0)
    decreases |accounts|
  {
    if accounts != [] {
      var init, a := accounts[..|accounts| - 1], accounts[|accounts| - 1];
      assert DistinctAccountIds(init);
      CountBounds(init, src, tgt);
      assert forall id :: AccountExists(accounts, id) <==> AccountExists(init, id) || a.id == id by {
        forall id ensures AccountExists(accounts, id) <==> AccountExists(init, id) || a.id == id {
          if AccountExists(accounts, id) {
            var i :| 0 <= i < |accounts| && accounts[i].id == id;
            if i < |init| {
              assert init[i].id == id;
            }
          }
          if AccountExists(init, id) {
            var i :| 0 <= i < |init| && init[i].id == id;
            assert accounts[i].id == id;
          }
        }
      }
      assert forall i :: 0 <= i < |init| ==> init[i].id != a.id by {
        forall i | 0 <= i < |init| ensures init[i].id != a.id {
          assert init[i] == accounts[i];
        }
      }
    }
  }

  /**
   * The status the handler answers with: 409 unless the user exists and
   * two account rows match, then 400 for a due date after now, else 201.
   */
  function TransferStatus(s: Snapshot, userId: Id, src: Id, tgt: Id, dueDate: DateTime, now: DateTime): (status: nat)
    requires DistinctAccountIds(s.accounts)
    ensures status in {Created, BadRequest, Conflict}
    ensures status == Conflict
            <==> !(userId in s.users && src != tgt && AccountExists(s.accounts, src) && AccountExists(s.accounts, tgt))
    ensures status == BadRequest <==> status != Conflict && Before(now, dueDate)
  {
    TwoRowsIffTwoDistinctAccounts(s.accounts, src, tgt);
    if userId !in s.users || CountRequested(s.accounts, src, tgt) != 2 then Conflict
    else if Before(now, dueDate) then BadRequest
    else Created
  }

  /**
   * The two rows of a transfer, TRANSFER_OUT first. They mirror each
   * other: the IN row is the OUT row with the accounts swapped, its own id,
   * type and description; both are effectived and share the transfer id,
   * user, amount, due date and observations.
   */
  function TransferPair(userId: Id, src: Id, tgt: Id, amount: int, dueDate: DateTime, observations: Option<string>,
                        transferId: Id, outId: Id, inId: Id): (r: seq<Transaction>)
    ensures |r| == 2
    ensures && r[0].id == outId && r[0].kind == TransferOut && r[0].accountId == src && r[0].targetAccountId == Some(tgt)
            && r[0].description == Some(OutDescription)
            && r[1] == r[0].(id := inId, accountId := tgt, targetAccountId := Some(src), kind := TransferIn,
                             description := Some(InDescription))
            && r[0].effectived && r[1].effectived
            && r[0].transferId == r[1].transferId == Some(transferId)
            && r[0].userId == r[1].userId == userId
            && r[0].amount == r[1].amount == amount
            && r[0].dueDate == r[1].dueDate == dueDate
            && r[0].observations == r[1].observations == observations
  {
    [Transaction(outId, userId, src, Some(tgt), None, None, None, Some(OutDescription), observations, amount,
                 TransferOut, dueDate, None, None, true, false, None, Some(transferId)),
     Transaction(inId, userId, tgt, Some(src), None, None, None, Some(InDescription), observations, amount,
                 TransferIn, dueDate, None, None, true, false, None, Some(transferId))]
  }

  /** Transfers never move an account's balance as the total-amount view computes it. */
  lemma TransferLeavesBalancesUnchanged(a: Account, txs: seq<Transaction>, monthEnd: DateTime, currentOrPast: bool,
                                        userId: Id, src: Id, tgt: Id, amount: int, dueDate: DateTime,
                                        observations: Option<string>, transferId: Id, outId: Id, inId: Id)
    ensures GetTotalAmount.AccountBalance(a, txs + TransferPair(userId, src, tgt, amount, dueDate, observations,
                                                                transferId, outId, inId), monthEnd, currentOrPast)
            == GetTotalAmount.AccountBalance(a, txs, monthEnd, currentOrPast)
  {
    var p := TransferPair(userId, src, tgt, amount, dueDate, observations, transferId, outId, inId);
    assert txs + p == (txs + [p[0]]) + [p[1]];
    GetTotalAmount.SumContributionsSnoc(txs, p[0], a.id, monthEnd, currentOrPast);
    GetTotalAmount.SumContributionsSnoc(txs + [p[0]], p[1], a.id, monthEnd, currentOrPast);
  }

  /**
   * The handler on the store. The fresh transfer id and the two row ids
   * are parameters; `now` is the clock reading.
   */
  method CreateTransfer(db: Ledger, userId: Id, src: Id, tgt: Id, amount: int, dueDate: DateTime,
                        observations: Option<string>, now: DateTime, transferId: Id, outId: Id, inId: Id)
    returns (status: nat)
    requires db.Valid()
    requires outId != inId
    requires forall t :: t in db.transactions ==> t.id != outId && t.id != inId
    modifies db
    ensures db.Valid()
    ensures status == TransferStatus(old(db.State()), userId, src, tgt, dueDate, now)
    ensures status != Created ==> db.State() == old(db.State())
    ensures status == Created ==>
              db.State() == old(db.State()).(transactions := old(db.transactions)
                 + TransferPair(userId, src, tgt, amount, dueDate, observations, transferId, outId, inId))
  {
    TwoRowsIffTwoDistinctAccounts(db.accounts, src, tgt);
    if userId !in db.users || CountRequested(db.accounts, src, tgt) != 2 {
      return Conflict;
    }
    if Before(now, dueDate) {
      return BadRequest;
    }
    var pair := TransferPair(userId, src, tgt, amount, dueDate, observations, transferId, outId, inId);
    ghost var before := db.transactions;
    db.transactions := db.transactions + pair;
    assert DistinctTransactionIds(db.transactions) by {
      forall i, j | 0 <= i < j < |db.transactions| ensures db.transactions[i].id != db.transactions[j].id {
        if j >= |before| && i < |before| {
          assert before[i] in before;
        }
      }
    }
    status := Created;
  }
}
