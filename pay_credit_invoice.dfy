/**
 * `PATCH /credit-cards/:creditCardId/invoice/pay`: settle one monthly
 * invoice of a card. The charges of the invoice that are still pending and
 * not fixed are summed; every charge of the invoice is marked effectived
 * and the card's available limit grows by that sum.
 */
module PayCreditInvoice {
  import opened Common
  import opened Calendar
  import opened Entities
  import opened Store
  import opened MonthQuery

  /**
   * The invoice of a card that falls due on `dueDay` of the queried month:
   * `new Date(year, month - 1, dueDay)`, so a query year from 0 to 99 names
   * an invoice in 1900 to 1999.
   */
  function InvoiceDate(y: int, m0: int, dueDay: int): (r: DateTime)
    requires 0 <= m0 < 12
    ensures Calendar.Valid(r) && r.ms == 0
    ensures 1 <= dueDay <= DaysInMonth(ConstructorYear(y), m0) ==> r == DateTime(ConstructorYear(y), m0, dueDay, 0)
    ensures var fy := ConstructorYear(y);
            var (ny, nm) := NextMonth(fy, m0);
            DaysInMonth(fy, m0) < dueDay <= 31 ==> r == DateTime(ny, nm, dueDay - DaysInMonth(fy, m0), 0)
  {
    assert ConstructorYear(y) + m0 / 12 == ConstructorYear(y) && m0 % 12 == m0;
    MakeDate(y, m0, dueDay)
  }

  /** A charge billed on this invoice of this card (the `updateMany` filter). */
  /** A charge is on at most one invoice: no other card and no other date matches it. */
  predicate OnInvoice(t: Transaction, cardId: Id, date: DateTime): (r: bool)
    ensures r ==> forall c: Id :: t.creditCardId == Some(c) ==> c == cardId
    ensures r ==> forall d: DateTime :: t.invoiceDate == Some(d) ==> d == date
    ensures t.creditCardId.None? || t.invoiceDate.None? ==> !r
  {
    t.creditCardId == Some(cardId) && t.invoiceDate == Some(date)
  }

  /**
   * A charge of the invoice still to be paid (the `findMany` filter): every
   * such charge is one the `updateMany` settles, and neither an effectived
   * nor a fixed charge is ever pending.
   */
  predicate IsPending(t: Transaction, cardId: Id, date: DateTime): (r: bool)
    ensures r ==> OnInvoice(t, cardId, date)
    ensures t.effectived || t.isFixed ==> !r
  {
    OnInvoice(t, cardId, date) && !t.effectived && !t.isFixed
  }

  /** The pending, non-fixed charges of the invoice, in ledger order. */
  function PendingCharges(txs: seq<Transaction>, cardId: Id, date: DateTime): (r: seq<Transaction>)
    ensures |r| <= |txs|
    ensures forall t :: t in r <==> t in txs && IsPending(t, cardId, date)
    ensures r == [] <==> forall i :: 0 <= i < |txs| ==> !IsPending(txs[i], cardId, date)
  {
    if txs == [] then []
    else
      var t := txs[|txs| - 1];
      assert txs == txs[..|txs| - 1] + [t];
      PendingCharges(txs[..|txs| - 1], cardId, date) + (if IsPending(t, cardId, date) then [t] else [])
  }

  /**
   * One row after the `updateMany`: a charge on the invoice becomes
   * effectived and so is no longer pending; nothing else about any row
   * changes, and a row stays on the invoice it was on.
   */
  function Settle(t: Transaction, cardId: Id, date: DateTime): (r: Transaction)
    ensures r.effectived == (t.effectived || OnInvoice(t, cardId, date))
    ensures r.(effectived := t.effectived) == t
    ensures OnInvoice(r, cardId, date) == OnInvoice(t, cardId, date)
    ensures !IsPending(r, cardId, date)
  {
    if OnInvoice(t, cardId, date) then t.(effectived := true) else t
  }

  /** The transactions table after the `updateMany`. */
  function SettleInvoice(txs: seq<Transaction>, cardId: Id, date: DateTime): (r: seq<Transaction>)
    ensures |r| == |txs|
    ensures forall i :: 0 <= i < |txs| ==> r[i] == Settle(txs[i], cardId, date)
  {
    if txs == [] then []
    else SettleInvoice(txs[..|txs| - 1], cardId, date) + [Settle(txs[|txs| - 1], cardId, date)]
  }

  /**
   * The handler on a snapshot of the store: the status it answers with and
   * the store it leaves behind. 400 for a malformed month, 404 when the
   * caller owns no card with this id, 409 when the invoice has no pending
   * charge; otherwise 201 with the invoice settled and the limit raised.
   */
  function PayInvoice(s: Snapshot, userId: Id, cardId: Id, month: string): (r: (nat, Snapshot))
    ensures r.0 in {Created, BadRequest, NotFound, Conflict}
    ensures r.0 == BadRequest <==> ParseMonth(month).None?
    ensures r.0 == NotFound <==> ParseMonth(month).Some? && FindOwnedCard(s.cards, cardId, userId).None?
    ensures r.0 != Created ==> r.1 == s
  {
    match ParseMonth(month)
    case None => (BadRequest, s)
    case Some((y, m0)) =>
      match FindOwnedCard(s.cards, cardId, userId)
      case None => (NotFound, s)
      case Some(k) =>
        var card := s.cards[k];
        var date := InvoiceDate(y, m0, card.dueDay);
        var pending := PendingCharges(s.transactions, cardId, date);
        if pending == [] then (Conflict, s)
        else
          var paid := card.(currentLimit := card.currentLimit + SumAmounts(pending));
          (Created, s.(transactions := SettleInvoice(s.transactions, cardId, date), cards := s.cards[k := paid]))
  }

  /** An owned card whose invoice has no pending, non-fixed charge is refused with 409 and nothing changes. */
  lemma EmptyInvoiceConflicts(s: Snapshot, userId: Id, cardId: Id, month: string, y: int, m0: int, k: nat)
    requires ParseMonth(month) == Some((y, m0))
    requires FindOwnedCard(s.cards, cardId, userId) == Some(k)
    requires forall t :: t in s.transactions ==> !IsPending(t, cardId, InvoiceDate(y, m0, s.cards[k].dueDay))
    ensures PayInvoice(s, userId, cardId, month) == (Conflict, s)
  {
    var date := InvoiceDate(y, m0, s.cards[k].dueDay);
    assert forall i :: 0 <= i < |s.transactions| ==> !IsPending(s.transactions[i], cardId, date) by {
      forall i | 0 <= i < |s.transactions| ensures !IsPending(s.transactions[i], cardId, date) {
        assert s.transactions[i] in s.transactions;
      }
    }
  }

  /**
   * A successful payment: the paid card's limit grows by exactly the sum of
   * the pending non-fixed charges; every charge of the invoice, fixed ones
   * included, becomes effectived; every other row, every other card, every
   * other field and every other table keeps its value.
   */
  lemma PaymentEffects(s: Snapshot, userId: Id, cardId: Id, month: string, y: int, m0: int, k: nat)
    requires ParseMonth(month) == Some((y, m0))
    requires FindOwnedCard(s.cards, cardId, userId) == Some(k)
    requires PendingCharges(s.transactions, cardId, InvoiceDate(y, m0, s.cards[k].dueDay)) != []
    ensures var date := InvoiceDate(y, m0, s.cards[k].dueDay);
            var r := PayInvoice(s, userId, cardId, month);
            && r.0 == Created
            && r.1.users == s.users && r.1.accounts == s.accounts && r.1.categories == s.categories
            && |r.1.cards| == |s.cards|
            && r.1.cards[k] == s.cards[k].(currentLimit := s.cards[k].currentLimit
                                            + SumAmounts(PendingCharges(s.transactions, cardId, date)))
            && (forall j :: 0 <= j < |s.cards| && j != k ==> r.1.cards[j] == s.cards[j])
            && |r.1.transactions| == |s.transactions|
            && (forall i :: 0 <= i < |s.transactions| && OnInvoice(s.transactions[i], cardId, date) ==>
                  r.1.transactions[i] == s.transactions[i].(effectived := true))
            && (forall i :: 0 <= i < |s.transactions| && !OnInvoice(s.transactions[i], cardId, date) ==>
                  r.1.transactions[i] == s.transactions[i])
  {
  }

  /** Once an invoice is paid, none of its charges is pending any more. */
  lemma {:induction false} NothingPendingAfterSettling(txs: seq<Transaction>, cardId: Id, date: DateTime)
    ensures PendingCharges(SettleInvoice(txs, cardId, date), cardId, date) == []
  {
    var settled := SettleInvoice(txs, cardId, date);
    forall i | 0 <= i < |settled| ensures !IsPending(settled[i], cardId, date) {
      assert settled[i] == Settle(txs[i], cardId, date);
    }
  }

  /** After a payment the caller's card is found again at the same row, and the table is the settled one. */
  lemma CardFoundAfterPayment(s: Snapshot, userId: Id, cardId: Id, month: string, y: int, m0: int, k: nat)
    requires ParseMonth(month) == Some((y, m0))
    requires FindOwnedCard(s.cards, cardId, userId) == Some(k)
    requires PayInvoice(s, userId, cardId, month).0 == Created
    ensures var after := PayInvoice(s, userId, cardId, month).1;
            && FindOwnedCard(after.cards, cardId, userId) == Some(k)
            && after.cards[k].dueDay == s.cards[k].dueDay
            && after.transactions == SettleInvoice(s.transactions, cardId, InvoiceDate(y, m0, s.cards[k].dueDay))
  {
    var date := InvoiceDate(y, m0, s.cards[k].dueDay);
    var paid := s.cards[k].(currentLimit := s.cards[k].currentLimit + SumAmounts(PendingCharges(s.transactions, cardId, date)));
    assert PayInvoice(s, userId, cardId, month).1
           == s.(transactions := SettleInvoice(s.transactions, cardId, date), cards := s.cards[k := paid]);
    FindOwnedCardAfterUpdate(s.cards, cardId, userId, k, paid);
  }

  /** Paying the same invoice a second time answers 409 and leaves the limit where the first payment put it. */
  lemma SecondPaymentConflicts(s: Snapshot, userId: Id, cardId: Id, month: string)
    requires PayInvoice(s, userId, cardId, month).0 == Created
    ensures var after := PayInvoice(s, userId, cardId, month).1;
            PayInvoice(after, userId, cardId, month) == (Conflict, after)
  {
    var (y, m0) := ParseMonth(month).value;
    var k := FindOwnedCard(s.cards, cardId, userId).value;
    var date := InvoiceDate(y, m0, s.cards[k].dueDay);
    CardFoundAfterPayment(s, userId, cardId, month, y, m0, k);
    NothingPendingAfterSettling(s.transactions, cardId, date);
  }

  /** After the `updateMany` every charge of the invoice in the table is effectived. */
  lemma SettledChargesAreEffectived(txs: seq<Transaction>, cardId: Id, date: DateTime)
    ensures forall t :: t in SettleInvoice(txs, cardId, date) && OnInvoice(t, cardId, date) ==> t.effectived
  {
    var settled := SettleInvoice(txs, cardId, date);
    forall t | t in settled && OnInvoice(t, cardId, date) ensures t.effectived {
      var n :| 0 <= n < |settled| && settled[n] == t;
      assert settled[n] == Settle(txs[n], cardId, date);
    }
  }

  /** A charge that is not on the invoice keeps its effectived flag, whatever its card or invoice date. */
  lemma OtherChargesUntouched(txs: seq<Transaction>, cardId: Id, date: DateTime, i: int)
    requires 0 <= i < |txs| && !OnInvoice(txs[i], cardId, date)
    ensures SettleInvoice(txs, cardId, date)[i] == txs[i]
  {
  }

  /** The scenario's card: 20000 limit, 16000 available, due on the 15th. */
  function ScenarioCard(): CreditCard {
    CreditCard("card", "u", "acc", "Credit Card", 5, 15, 20000, 16000)
  }

  /** A charge of 2000 in one instalment on card "card" for the February 2025 invoice; `isFixed` marks the recurring one. */
  function ScenarioCharge(id: Id, title: string, category: int, purchase: DateTime, isFixed: bool): Transaction {
    Transaction(id, "u", "acc", None, Some("card"), Some(category), None, Some(title), None,
                2000, Credit, purchase, Some(DateTime(2025, 1, 15, 0)), None, false, isFixed, Some(1), None)
  }

  /** Of two rows, the pending ones in ledger order. */
  lemma PendingOfTwo(a: Transaction, b: Transaction, cardId: Id, date: DateTime)
    ensures PendingCharges([a, b], cardId, date)
            == (if IsPending(a, cardId, date) then [a] else []) + (if IsPending(b, cardId, date) then [b] else [])
  {
    assert [a, b][..1] == [a] && [a][..0] == [];
  }

  /**
   * The payment scenario, on the ledger the payment test expects before it
   * pays: a card with 16000 available, a pending charge of 2000 and a fixed
   * charge of 2000, both on the February 2025 invoice (due on the 15th).
   * Paying raises the limit to 18000 and both charges become effectived.
   * The test's own purchase requests do not produce this ledger through
   * the handler as written; `CreateCreditExpense.PaymentTestAsWritten` and
   * `CreateCreditExpense.PaymentTestCorrected` follow them.
   */
  lemma PaymentScenario(accounts: seq<Account>)
    ensures var gas := ScenarioCharge("t1", "gasolina", 8, DateTime(2025, 0, 20, 0), false);
            var netflix := ScenarioCharge("t2", "netflix", 10, DateTime(2025, 1, 4, 0), true);
            var s := Snapshot({"u"}, accounts, [gas, netflix], [], [ScenarioCard()]);
            PayInvoice(s, "u", "card", "2025-02")
            == (Created, s.(transactions := [gas.(effectived := true), netflix.(effectived := true)],
                            cards := [ScenarioCard().(currentLimit := 18000)]))
  {
    var card := ScenarioCard();
    var gas := ScenarioCharge("t1", "gasolina", 8, DateTime(2025, 0, 20, 0), false);
    var netflix := ScenarioCharge("t2", "netflix", 10, DateTime(2025, 1, 4, 0), true);
    February2025();
    var date := DateTime(2025, 1, 15, 0);
    assert InvoiceDate(2025, 1, 15) == date;
    PendingOfTwo(gas, netflix, "card", date);
    assert PendingCharges([gas, netflix], "card", date) == [gas];
    var settled := SettleInvoice([gas, netflix], "card", date);
    assert settled == [gas.(effectived := true), netflix.(effectived := true)];
    assert SumAmounts([gas]) == 2000;
    assert FindOwnedCard([card], "card", "u") == Some(0);
    assert [card][0 := card.(currentLimit := 16000 + 2000)] == [card.(currentLimit := 18000)];
  }

  /** A payment keeps every primary key unique: rows and the card change in place and keep their ids. */
  lemma PaymentKeepsStoreValid(s: Snapshot, userId: Id, cardId: Id, month: string)
    requires ValidSnapshot(s)
    ensures ValidSnapshot(PayInvoice(s, userId, cardId, month).1)
  {
    var (status, after) := PayInvoice(s, userId, cardId, month);
    if status == Created {
      var (y, m0) := ParseMonth(month).value;
      var k := FindOwnedCard(s.cards, cardId, userId).value;
      var date := InvoiceDate(y, m0, s.cards[k].dueDay);
      assert after.transactions == SettleInvoice(s.transactions, cardId, date);
      assert DistinctTransactionIds(after.transactions) by {
        forall i, j | 0 <= i < j < |after.transactions|
          ensures after.transactions[i].id != after.transactions[j].id
        {
          assert after.transactions[i].id == s.transactions[i].id;
          assert after.transactions[j].id == s.transactions[j].id;
        }
      }
      assert DistinctCardIds(after.cards) by {
        forall i, j | 0 <= i < j < |after.cards| ensures after.cards[i].id != after.cards[j].id {
          assert after.cards[i].id == s.cards[i].id;
          assert after.cards[j].id == s.cards[j].id;
        }
      }
    }
  }

  /** The handler on the store: the `updateMany` and the card `update` of one `$transaction`. */
  method PayCreditInvoice(db: Ledger, userId: Id, cardId: Id, month: string) returns (status: nat)
    requires db.Valid()
    modifies db
    ensures db.Valid()
    ensures (status, db.State()) == PayInvoice(old(db.State()), userId, cardId, month)
  {
    var parsed := ParseMonth(month);
    if parsed.None? {
      return BadRequest;
    }
    var (y, m0) := parsed.value;
    var found := FindOwnedCard(db.cards, cardId, userId);
    if found.None? {
      return NotFound;
    }
    var k := found.value;
    var card := db.cards[k];
    var date := InvoiceDate(y, m0, card.dueDay);
    var pending := PendingCharges(db.transactions, cardId, date);
    if pending == [] {
      return Conflict;
    }
    var settled := SettleInvoice(db.transactions, cardId, date);
    var paid := db.cards[k := card.(currentLimit := card.currentLimit + SumAmounts(pending))];
    assert PayInvoice(db.State(), userId, cardId, month)
           == (Created, db.State().(transactions := settled, cards := paid));
    PaymentKeepsStoreValid(db.State(), userId, cardId, month);
    db.transactions, db.cards := settled, paid;
    status := Created;
  }
}
