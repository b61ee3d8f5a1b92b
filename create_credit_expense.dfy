/**
 * Credit-card purchases: the mapping of a purchase date to the due date of
 * the invoice it falls into, and the `POST /transactions/credit` handler.
 */
module CreateCreditExpense {
  import opened Common
  import opened Calendar
  import opened Entities
  import opened Store
  import opened MonthQuery
  import opened PayCreditInvoice

  /**
   * `getDueDateInvoice`: a purchase made after the closing day is billed on
   * the invoice due next month, otherwise on the one due this month. For a
   * due day that every month has, the invoice falls on that day of the
   * purchase month or of the month after it, December rolling into January.
   * The purchase year is passed to `new Date`, so a purchase in a year from 0
   * to 99 is billed in 1900 to 1999.
   */
  function GetDueDateInvoice(purchase: DateTime, closingDay: int, dueDay: int): (r: DateTime)
    requires Calendar.Valid(purchase)
    ensures Calendar.Valid(r) && r.ms == 0
    ensures 1 <= dueDay <= 28 ==>
              && r.day == dueDay
              && MonthIndex(r.year, r.month0)
                 == MonthIndex(ConstructorYear(purchase.year), purchase.month0) + (if purchase.day > closingDay then 1 else 0)
    ensures var (iy, im) := InvoiceMonth(purchase, closingDay);
            1 <= dueDay <= 31 ==>
              r == if dueDay <= DaysInMonth(iy, im) then DateTime(iy, im, dueDay, 0)
                   else DateTime(NextMonth(iy, im).0, NextMonth(iy, im).1, dueDay - DaysInMonth(iy, im), 0)
  {
    var fy := ConstructorYear(purchase.year);
    if purchase.day > closingDay then
      assert (fy + (purchase.month0 + 1) / 12, (purchase.month0 + 1) % 12) == InvoiceMonth(purchase, closingDay);
      MakeDate(purchase.year, purchase.month0 + 1, dueDay)
    else
      assert (fy + purchase.month0 / 12, purchase.month0 % 12) == InvoiceMonth(purchase, closingDay);
      MakeDate(purchase.year, purchase.month0, dueDay)
  }

  /** The year and month of the invoice a purchase is billed on: the purchase month, or the next one after the closing day. */
  function InvoiceMonth(purchase: DateTime, closingDay: int): (r: (int, int))
    requires Calendar.Valid(purchase)
    ensures 0 <= r.1 < 12
    ensures MonthIndex(r.0, r.1)
            == MonthIndex(ConstructorYear(purchase.year), purchase.month0) + (if purchase.day > closingDay then 1 else 0)
  {
    var fy := ConstructorYear(purchase.year);
    if purchase.day > closingDay then NextMonth(fy, purchase.month0) else (fy, purchase.month0)
  }

  /** Equal month indices of valid months name the same year and month. */
  lemma SameMonthIndex(y: int, m: int, y': int, m': int)
    requires 0 <= m < 12 && 0 <= m' < 12
    requires MonthIndex(y, m) == MonthIndex(y', m')
    ensures y == y' && m == m'
  {
  }

  /** A purchase after the closing day lands on the due day of the following month. */
  lemma AfterClosingDay(purchase: DateTime, closingDay: int, dueDay: int)
    requires Calendar.Valid(purchase) && purchase.day > closingDay
    requires var (ny, nm) := NextMonth(ConstructorYear(purchase.year), purchase.month0);
             1 <= dueDay <= DaysInMonth(ny, nm)
    ensures var (ny, nm) := NextMonth(ConstructorYear(purchase.year), purchase.month0);
            GetDueDateInvoice(purchase, closingDay, dueDay) == DateTime(ny, nm, dueDay, 0)
  {
    var r := GetDueDateInvoice(purchase, closingDay, dueDay);
    var fy := ConstructorYear(purchase.year);
    var (ny, nm) := NextMonth(fy, purchase.month0);
    var m := purchase.month0 + 1;
    assert (fy + m / 12, m % 12) == (ny, nm);
    SameMonthIndex(r.year, r.month0, ny, nm);
  }

  /** A purchase on or before the closing day, the closing day included, lands on the due day of its own month. */
  lemma OnOrBeforeClosingDay(purchase: DateTime, closingDay: int, dueDay: int)
    requires Calendar.Valid(purchase) && purchase.day <= closingDay
    requires 1 <= dueDay <= DaysInMonth(ConstructorYear(purchase.year), purchase.month0)
    ensures GetDueDateInvoice(purchase, closingDay, dueDay)
            == DateTime(ConstructorYear(purchase.year), purchase.month0, dueDay, 0)
  {
    var r := GetDueDateInvoice(purchase, closingDay, dueDay);
    var fy := ConstructorYear(purchase.year);
    var m := purchase.month0;
    assert (fy + m / 12, m % 12) == (fy, m);
    SameMonthIndex(r.year, r.month0, fy, m);
  }

  /** A December purchase after the closing day is billed in January of the next year. */
  lemma DecemberRollsIntoJanuary(purchase: DateTime, closingDay: int, dueDay: int)
    requires Calendar.Valid(purchase) && purchase.month0 == 11 && purchase.day > closingDay
    requires 1 <= dueDay <= 31
    ensures GetDueDateInvoice(purchase, closingDay, dueDay) == DateTime(ConstructorYear(purchase.year) + 1, 0, dueDay, 0)
  {
    AfterClosingDay(purchase, closingDay, dueDay);
  }

  /** The invoice month is the purchase month or the next one whenever the due day fits in it. */
  lemma InvoiceMonthIsPurchaseMonthOrNext(purchase: DateTime, closingDay: int, dueDay: int)
    requires Calendar.Valid(purchase) && 1 <= dueDay
    requires purchase.day > closingDay ==>
               var (ny, nm) := NextMonth(ConstructorYear(purchase.year), purchase.month0);
               dueDay <= DaysInMonth(ny, nm)
    requires purchase.day <= closingDay ==> dueDay <= DaysInMonth(ConstructorYear(purchase.year), purchase.month0)
    ensures var r := GetDueDateInvoice(purchase, closingDay, dueDay);
            var pm := MonthIndex(ConstructorYear(purchase.year), purchase.month0);
            r.day == dueDay && (MonthIndex(r.year, r.month0) == pm || MonthIndex(r.year, r.month0) == pm + 1)
  {
    if purchase.day > closingDay {
      AfterClosingDay(purchase, closingDay, dueDay);
    } else {
      OnOrBeforeClosingDay(purchase, closingDay, dueDay);
    }
  }

  /** Only the year, month and day of the purchase matter, not its time of day. */
  lemma TimeOfDayIsIgnored(p: DateTime, q: DateTime, closingDay: int, dueDay: int)
    requires Calendar.Valid(p) && Calendar.Valid(q)
    requires p.year == q.year && p.month0 == q.month0 && p.day == q.day
    ensures GetDueDateInvoice(p, closingDay, dueDay) == GetDueDateInvoice(q, closingDay, dueDay)
  {
  }

  /**
   * The unit-test cases, a due day of 30 that February does not have
   * (`new Date(2025, 1, 30)` runs over into 2 March), and a purchase in
   * December of the year 24, billed in January 1925.
   */
  lemma DueDateInvoiceExamples()
    ensures GetDueDateInvoice(DateTime(2025, 1, 10, 0), 15, 20) == DateTime(2025, 1, 20, 0)
    ensures GetDueDateInvoice(DateTime(2025, 1, 16, 0), 15, 20) == DateTime(2025, 2, 20, 0)
    ensures GetDueDateInvoice(DateTime(2024, 11, 20, 0), 15, 20) == DateTime(2025, 0, 20, 0)
    ensures GetDueDateInvoice(DateTime(2025, 1, 15, 0), 15, 20) == DateTime(2025, 1, 20, 0)
    ensures GetDueDateInvoice(DateTime(2025, 1, 10, 0), 15, 30) == DateTime(2025, 2, 2, 0)
    ensures GetDueDateInvoice(DateTime(24, 11, 20, 0), 15, 20) == DateTime(1925, 0, 20, 0)
  {
  }

  /** The row the handler stores: the request's fields on the card's account, with the flags at their column defaults. */
  function CreditRow(newId: Id, userId: Id, card: CreditCard, description: string, amount: int, dueDate: DateTime,
                     invoiceDate: Option<DateTime>, categoryId: int, observations: Option<string>): (t: Transaction)
    ensures t.id == newId && t.userId == userId && t.kind == Credit
    ensures t.accountId == card.accountId && t.creditCardId == Some(card.id)
    ensures t.amount == amount && t.dueDate == dueDate && t.invoiceDate == invoiceDate
    ensures t.categoryId == Some(categoryId) && t.description == Some(description) && t.observations == observations
    ensures !t.effectived && !t.isFixed && t.installments.None?
  {
    Transaction(newId, userId, card.accountId, None, Some(card.id), Some(categoryId), None, Some(description),
                observations, amount, Credit, dueDate, invoiceDate, None, false, false, None, None)
  }

  /**
   * `POST /transactions/credit` on a snapshot: the status and the
   * transactions table after the request. 409 when the caller owns no such
   * card; otherwise one CREDIT row posted to the card's account, carrying
   * the invoice date the client sent (none when it sent none). The
   * installments and isFixed fields of the request are not stored, and the
   * card is not touched.
   */
  function Charge(s: Snapshot, userId: Id, creditCardId: Id, description: string, amount: int, dueDate: DateTime,
                  installments: Option<int>, invoiceDate: Option<DateTime>, categoryId: int,
                  observations: Option<string>, isFixed: bool, newId: Id): (r: (nat, seq<Transaction>))
    ensures r.0 == Created || r.0 == Conflict
    ensures r.0 == Conflict <==> FindOwnedCard(s.cards, creditCardId, userId).None?
    ensures r.0 == Conflict ==> r.1 == s.transactions
    ensures r.0 == Created ==>
              var card := s.cards[FindOwnedCard(s.cards, creditCardId, userId).value];
              r.1 == s.transactions + [CreditRow(newId, userId, card, description, amount, dueDate, invoiceDate,
                                                 categoryId, observations)]
  {
    match FindOwnedCard(s.cards, creditCardId, userId)
    case None => (Conflict, s.transactions)
    case Some(k) =>
      (Created, s.transactions + [CreditRow(newId, userId, s.cards[k], description, amount, dueDate, invoiceDate,
                                            categoryId, observations)])
  }

  /** The handler on the store. */
  method CreateCreditExpense(
    db: Ledger, userId: Id, creditCardId: Id, description: string, amount: int,
    dueDate: DateTime, installments: Option<int>, invoiceDate: Option<DateTime>,
    categoryId: int, observations: Option<string>, isFixed: bool, newId: Id)
    returns (status: nat)
    requires db.Valid()
    requires forall t :: t in db.transactions ==> t.id != newId
    modifies db
    ensures db.Valid()
    ensures (status, db.transactions)
            == Charge(old(db.State()), userId, creditCardId, description, amount, dueDate, installments, invoiceDate,
                      categoryId, observations, isFixed, newId)
    ensures db.State() == old(db.State()).(transactions := db.transactions)
  {
    var found := FindOwnedCard(db.cards, creditCardId, userId);
    if found.None? {
      return Conflict;
    }
    ghost var before := db.transactions;
    var card := db.cards[found.value];
    db.transactions := db.transactions + [CreditRow(newId, userId, card, description, amount, dueDate, invoiceDate,
                                                    categoryId, observations)];
    assert DistinctTransactionIds(db.transactions) by {
      forall i, j | 0 <= i < j < |db.transactions| ensures db.transactions[i].id != db.transactions[j].id {
        if j == |before| {
          assert before[i] in before;
        }
      }
    }
    status := Created;
  }

  // ----- The purchase as evidently intended -----

  /**
   * A purchase as the rest of the ledger expects it: billed on the invoice
   * date the client sent or else on `GetDueDateInvoice` of its date, with
   * its isFixed and installments fields kept, and the card's available
   * limit lowered by its amount.
   */
  function ChargeAndBill(s: Snapshot, userId: Id, creditCardId: Id, description: string, amount: int, dueDate: DateTime,
                         installments: Option<int>, invoiceDate: Option<DateTime>, categoryId: int,
                         observations: Option<string>, isFixed: bool, newId: Id): (r: (nat, Snapshot))
    requires Calendar.Valid(dueDate)
    ensures r.0 == Created || r.0 == Conflict
    ensures r.0 == Conflict <==> FindOwnedCard(s.cards, creditCardId, userId).None?
    ensures r.0 == Conflict ==> r.1 == s
    ensures r.0 == Created ==>
              var k := FindOwnedCard(s.cards, creditCardId, userId).value;
              var card := s.cards[k];
              var bill := if invoiceDate.Some? then invoiceDate
                          else Some(GetDueDateInvoice(dueDate, card.closingDay, card.dueDay));
              var row := CreditRow(newId, userId, card, description, amount, dueDate, bill, categoryId, observations);
              && r.1.transactions == s.transactions + [row.(isFixed := isFixed, installments := installments)]
              && r.1.cards == s.cards[k := card.(currentLimit := card.currentLimit - amount)]
              && r.1 == s.(transactions := r.1.transactions, cards := r.1.cards)
  {
    match FindOwnedCard(s.cards, creditCardId, userId)
    case None => (Conflict, s)
    case Some(k) =>
      var card := s.cards[k];
      var bill := if invoiceDate.Some? then invoiceDate
                  else Some(GetDueDateInvoice(dueDate, card.closingDay, card.dueDay));
      var row := CreditRow(newId, userId, card, description, amount, dueDate, bill, categoryId, observations);
      (Created, s.(transactions := s.transactions + [row.(isFixed := isFixed, installments := installments)],
                   cards := s.cards[k := card.(currentLimit := card.currentLimit - amount)]))
  }

  // ----- The payment test's own requests -----

  /** The payment test's ledger: a card with closing day 5, due day 15 and 20000 available, and no charges. */
  function PaymentTestLedger(): Snapshot {
    Snapshot({"u"}, [Account("acc", "u", "Conta", Bank, 1000)], [], [],
             [CreditCard("card", "u", "acc", "Credit Card", 5, 15, 20000, 20000)])
  }

  /** The test's two purchases through the handler as written. */
  function PurchasesAsWritten(): Snapshot {
    var s0 := PaymentTestLedger();
    var s1 := s0.(transactions := Charge(s0, "u", "card", "gasolina", 2000, DateTime(2025, 0, 20, 0), Some(1), None,
                                         8, None, false, "t1").1);
    s1.(transactions := Charge(s1, "u", "card", "netflix", 2000, DateTime(2025, 1, 4, 0), Some(1), None,
                               10, None, true, "t2").1)
  }

  /**
   * As written, the test's purchases carry no invoice date and leave the
   * card at 20000, so paying "2025-02" finds nothing pending and answers
   * 409, where the test expects 16000 before the payment and 201.
   */
  lemma PaymentTestAsWritten()
    ensures PurchasesAsWritten().cards[0].currentLimit == 20000
    ensures PayInvoice(PurchasesAsWritten(), "u", "card", "2025-02") == (Conflict, PurchasesAsWritten())
  {
    var s := PurchasesAsWritten();
    assert s.cards == PaymentTestLedger().cards
           && |s.transactions| == 2 && s.transactions[0].invoiceDate.None? && s.transactions[1].invoiceDate.None?;
    February2025();
    assert FindOwnedCard(s.cards, "card", "u") == Some(0);
    assert PendingCharges(s.transactions, "card", InvoiceDate(2025, 1, 15)) == [];
  }

  /** The first purchase, on 20 January after the closing day, is billed on 15 February, and the limit drops to 18000. */
  lemma FirstPurchaseBilled()
    ensures var r := ChargeAndBill(PaymentTestLedger(), "u", "card", "gasolina", 2000, DateTime(2025, 0, 20, 0),
                                   Some(1), None, 8, None, false, "t1");
            && r.0 == Created
            && r.1 == PaymentTestLedger().(transactions := [ScenarioCharge("t1", "gasolina", 8, DateTime(2025, 0, 20, 0), false)],
                                           cards := [PaymentTestLedger().cards[0].(currentLimit := 18000)])
  {
    assert FindOwnedCard(PaymentTestLedger().cards, "card", "u") == Some(0);
    AfterClosingDay(DateTime(2025, 0, 20, 0), 5, 15);
  }

  /** The second purchase, on 4 February before the closing day, is billed on 15 February too, and the limit drops to 16000. */
  lemma SecondPurchaseBilled(s1: Snapshot)
    requires s1 == PaymentTestLedger().(transactions := [ScenarioCharge("t1", "gasolina", 8, DateTime(2025, 0, 20, 0), false)],
                                        cards := [PaymentTestLedger().cards[0].(currentLimit := 18000)])
    ensures var r := ChargeAndBill(s1, "u", "card", "netflix", 2000, DateTime(2025, 1, 4, 0), Some(1), None, 10, None, true, "t2");
            && r.0 == Created
            && r.1 == Snapshot({"u"}, s1.accounts,
                               [ScenarioCharge("t1", "gasolina", 8, DateTime(2025, 0, 20, 0), false),
                                ScenarioCharge("t2", "netflix", 10, DateTime(2025, 1, 4, 0), true)], [], [ScenarioCard()])
  {
    assert FindOwnedCard(s1.cards, "card", "u") == Some(0);
    OnOrBeforeClosingDay(DateTime(2025, 1, 4, 0), 5, 15);
  }

  /**
   * With purchases billed and charged to the card, the test's sequence
   * goes as it expects: 16000 available after the two purchases, then the
   * payment answers 201, the limit is 18000 and both charges are effectived.
   */
  lemma PaymentTestCorrected()
    ensures var r1 := ChargeAndBill(PaymentTestLedger(), "u", "card", "gasolina", 2000, DateTime(2025, 0, 20, 0),
                                    Some(1), None, 8, None, false, "t1");
            var r2 := ChargeAndBill(r1.1, "u", "card", "netflix", 2000, DateTime(2025, 1, 4, 0),
                                    Some(1), None, 10, None, true, "t2");
            var paid := PayInvoice(r2.1, "u", "card", "2025-02");
            && r1.0 == Created && r2.0 == Created
            && r2.1.cards[0].currentLimit == 16000
            && paid.0 == Created
            && paid.1.cards[0].currentLimit == 18000
            && |paid.1.transactions| == 2
            && paid.1.transactions[0].effectived && paid.1.transactions[1].effectived
  {
    FirstPurchaseBilled();
    var r1 := ChargeAndBill(PaymentTestLedger(), "u", "card", "gasolina", 2000, DateTime(2025, 0, 20, 0),
                            Some(1), None, 8, None, false, "t1");
    SecondPurchaseBilled(r1.1);
    PaymentScenario(r1.1.accounts);
  }
}
