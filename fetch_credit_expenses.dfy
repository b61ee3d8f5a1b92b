/**
 * `GET /credit-cards/:creditCardId/invoice`: the caller's charges on one
 * monthly invoice of a card, newest first, with the invoice's total, its
 * closing and due days and an `isPaid` flag.
 */
module FetchCreditExpenses {
  import opened Common
  import opened Calendar
  import opened Entities
  import opened Store
  import opened MonthQuery
  import opened PayCreditInvoice

  /** One listed expense, as the handler maps it. */
  datatype ExpenseRow = ExpenseRow(
    id: Id,
    amount: int,
    category: Option<string>,
    description: Option<string>,
    dueDate: DateTime,
    isFixed: bool,
    installments: int,
    observations: Option<string>)

  datatype Invoice = Invoice(totalAmount: int, dueDate: int, closingDate: int, isPaid: bool)

  datatype InvoiceView = InvoiceView(invoice: Invoice, expenses: seq<ExpenseRow>)

  /** A charge of the caller on this invoice of this card (the `findMany` filter). */
  predicate OnCallersInvoice(t: Transaction, cardId: Id, userId: Id, date: DateTime) {
    t.creditCardId == Some(cardId) && t.userId == userId && t.invoiceDate == Some(date)
  }

  /** The caller's charges on the invoice, in ledger order. */
  function InvoiceExpenses(txs: seq<Transaction>, cardId: Id, userId: Id, date: DateTime): (r: seq<Transaction>)
    ensures forall t :: t in r <==> t in txs && OnCallersInvoice(t, cardId, userId, date)
    ensures r == [] <==> forall i :: 0 <= i < |txs| ==> !OnCallersInvoice(txs[i], cardId, userId, date)
  {
    if txs == [] then []
    else
      var t := txs[|txs| - 1];
      InvoiceExpenses(txs[..|txs| - 1], cardId, userId, date)
      + (if OnCallersInvoice(t, cardId, userId, date) then [t] else [])
  }

  /** Ordered by due date, newest first (`orderBy: { dueDate: 'desc' }`). */
  predicate NewestFirst(s: seq<Transaction>) {
    forall i, j :: 0 <= i < j < |s| ==> AtOrBefore(s[j].dueDate, s[i].dueDate)
  }

  /** A charge no older than every charge of a newest-first list can go in front of it. */
  lemma PrependNewest(x: Transaction, rest: seq<Transaction>)
    requires NewestFirst(rest)
    requires forall j :: 0 <= j < |rest| ==> AtOrBefore(rest[j].dueDate, x.dueDate)
    ensures NewestFirst([x] + rest)
  {
    forall i, j | 0 <= i < j < |[x] + rest| ensures AtOrBefore(([x] + rest)[j].dueDate, ([x] + rest)[i].dueDate) {
      assert ([x] + rest)[j] == rest[j - 1];
    }
  }

  /** Inserting a charge newer than the head elsewhere keeps every element no newer than the head. */
  lemma InsertedBelowHead(t: Transaction, s: seq<Transaction>, rest: seq<Transaction>)
    requires NewestFirst(s) && s != [] && !AtOrBefore(s[0].dueDate, t.dueDate)
    requires multiset(rest) == multiset(s[1..]) + multiset{t}
    ensures forall j :: 0 <= j < |rest| ==> AtOrBefore(rest[j].dueDate, s[0].dueDate)
  {
    forall j | 0 <= j < |rest| ensures AtOrBefore(rest[j].dueDate, s[0].dueDate) {
      assert rest[j] in multiset(rest);
      if rest[j] != t {
        assert rest[j] in multiset(s[1..]);
        var m :| 0 <= m < |s[1..]| && s[1..][m] == rest[j];
        assert s[m + 1] == rest[j];
      }
    }
  }

  /** Insert a charge in front of the first one that is not newer than it. */
  function InsertByDueDate(t: Transaction, s: seq<Transaction>): (r: seq<Transaction>)
    requires NewestFirst(s)
    ensures NewestFirst(r)
    ensures multiset(r) == multiset(s) + multiset{t}
  {
    if s == [] then [t]
    else if AtOrBefore(s[0].dueDate, t.dueDate) then
      PrependNewest(t, s);
      [t] + s
    else
      assert s == [s[0]] + s[1..];
      var rest := InsertByDueDate(t, s[1..]);
      InsertedBelowHead(t, s, rest);
      PrependNewest(s[0], rest);
      [s[0]] + rest
  }

  /** The charges sorted newest first; charges with equal due dates keep their ledger order. */
  function SortByDueDateDesc(s: seq<Transaction>): (r: seq<Transaction>)
    ensures NewestFirst(r)
    ensures multiset(r) == multiset(s)
  {
    if s == [] then []
    else
      assert s == [s[0]] + s[1..];
      InsertByDueDate(s[0], SortByDueDateDesc(s[1..]))
  }

  /** `installments || 1`: the stored count, or 1 when it is null or 0. */
  function ShownInstallments(t: Transaction): (n: int)
    ensures t.installments.None? ==> n == 1
    ensures t.installments.Some? ==> n == (if t.installments.value == 0 then 1 else t.installments.value)
  {
    match t.installments
    case None => 1
    case Some(k) => if k == 0 then 1 else k
  }

  /** The name of the category with this id, if there is one. */
  function CategoryName(cats: seq<Category>, id: Option<int>): (r: Option<string>)
    ensures r.Some? ==> exists c :: c in cats && Some(c.id) == id && c.name == r.value
    ensures r.None? ==> id.None? || forall c :: c in cats ==> c.id != id.value
  {
    if id.None? then None
    else match FindFirst(cats, (c: Category) => c.id == id.value)
      case None => None
      case Some(k) => Some(cats[k].name)
  }

  /**
   * One expense as the view shows it: the charge's own columns unchanged,
   * the category named exactly when the charge has one that exists, and
   * the stored installment count, shown as 1 when it is missing or 0.
   */
  function ExpenseRowOf(t: Transaction, cats: seq<Category>): (e: ExpenseRow)
    ensures e.id == t.id && e.amount == t.amount && e.description == t.description && e.dueDate == t.dueDate
            && e.isFixed == t.isFixed && e.observations == t.observations
    ensures e.category.Some? <==> t.categoryId.Some? && exists c :: c in cats && c.id == t.categoryId.value
    ensures e.installments != 0
    ensures t.installments.Some? && t.installments.value != 0 ==> e.installments == t.installments.value
  {
    ExpenseRow(t.id, t.amount, CategoryName(cats, t.categoryId), t.description, t.dueDate,
               t.isFixed, ShownInstallments(t), t.observations)
  }

  /** The expenses the view lists, in the order it lists them. */
  function ListedExpenses(s: Snapshot, cardId: Id, userId: Id, date: DateTime): (r: seq<Transaction>)
    ensures NewestFirst(r)
    ensures multiset(r) == multiset(InvoiceExpenses(s.transactions, cardId, userId, date))
  {
    SortByDueDateDesc(InvoiceExpenses(s.transactions, cardId, userId, date))
  }

  /** The rows of the answer, one per listed expense in the listed order. */
  function ExpenseRows(expenses: seq<Transaction>, cats: seq<Category>): (r: seq<ExpenseRow>)
    ensures |r| == |expenses|
    ensures forall i :: 0 <= i < |expenses| ==> r[i] == ExpenseRowOf(expenses[i], cats)
  {
    seq(|expenses|, i requires 0 <= i < |expenses| => ExpenseRowOf(expenses[i], cats))
  }

  /** The flag a paid invoice evidently calls for: every listed expense is effectived. */
  predicate IsPaid(expenses: seq<Transaction>) {
    forall i :: 0 <= i < |expenses| ==> expenses[i].effectived
  }

  /**
   * The flag as the handler computes it: every listed expense has
   * `effectived === false`. It agrees with `IsPaid` on "paid" for the
   * empty invoice only.
   */
  predicate IsPaidAsWritten(expenses: seq<Transaction>)
    ensures IsPaidAsWritten(expenses) && IsPaid(expenses) <==> expenses == []
  {
    var noneEffectived := forall i :: 0 <= i < |expenses| ==> !expenses[i].effectived;
    assert noneEffectived && expenses != [] ==> !expenses[0].effectived;
    noneEffectived
  }

  /**
   * The handler: 400 for a malformed month, 404 when the caller owns no
   * card with this id, otherwise the invoice due on the card's due day of
   * the queried month. `isPaid` is the corrected flag, every listed charge
   * effectived; `IsPaidAsWritten` is the flag the handler computes.
   */
  function FetchInvoice(s: Snapshot, userId: Id, cardId: Id, month: string): (r: Reply<InvoiceView>)
    ensures r == Failure(BadRequest) <==> ParseMonth(month).None?
    ensures r == Failure(NotFound) <==> ParseMonth(month).Some? && FindOwnedCard(s.cards, cardId, userId).None?
    ensures r.Success? ==>
              var (y, m0) := ParseMonth(month).value;
              var card := s.cards[FindOwnedCard(s.cards, cardId, userId).value];
              var selected := InvoiceExpenses(s.transactions, cardId, userId, InvoiceDate(y, m0, card.dueDay));
              && r.value.invoice.totalAmount == SumAmounts(selected)
              && r.value.invoice.dueDate == card.dueDay
              && r.value.invoice.closingDate == card.closingDay
              && r.value.invoice.isPaid == IsPaid(selected)
              && |r.value.expenses| == |selected|
  {
    match ParseMonth(month)
    case None => Failure(BadRequest)
    case Some((y, m0)) =>
      match FindOwnedCard(s.cards, cardId, userId)
      case None => Failure(NotFound)
      case Some(k) =>
        var card := s.cards[k];
        var date := InvoiceDate(y, m0, card.dueDay);
        var expenses := ListedExpenses(s, cardId, userId, date);
        ListingKeepsTotals(s, cardId, userId, date);
        Success(InvoiceView(Invoice(SumAmounts(expenses), card.dueDay, card.closingDay, IsPaid(expenses)),
                            ExpenseRows(expenses, s.categories)))
  }

  /**
   * The handler's reply as written: the same answer as `FetchInvoice`,
   * except that `isPaid` is `every(expense => expense.effectived === false)`.
   */
  function FetchInvoiceAsWritten(s: Snapshot, userId: Id, cardId: Id, month: string): (r: Reply<InvoiceView>)
    ensures r.Failure? <==> FetchInvoice(s, userId, cardId, month).Failure?
    ensures r.Failure? ==> r == FetchInvoice(s, userId, cardId, month)
    ensures r.Success? ==>
              var (y, m0) := ParseMonth(month).value;
              var card := s.cards[FindOwnedCard(s.cards, cardId, userId).value];
              var selected := InvoiceExpenses(s.transactions, cardId, userId, InvoiceDate(y, m0, card.dueDay));
              var corrected := FetchInvoice(s, userId, cardId, month).value;
              && r.value.invoice.isPaid == IsPaidAsWritten(selected)
              && r.value == corrected.(invoice := corrected.invoice.(isPaid := r.value.invoice.isPaid))
  {
    match ParseMonth(month)
    case None => Failure(BadRequest)
    case Some((y, m0)) =>
      match FindOwnedCard(s.cards, cardId, userId)
      case None => Failure(NotFound)
      case Some(k) =>
        var card := s.cards[k];
        var date := InvoiceDate(y, m0, card.dueDay);
        var expenses := ListedExpenses(s, cardId, userId, date);
        ListingKeepsTotals(s, cardId, userId, date);
        Success(InvoiceView(Invoice(SumAmounts(expenses), card.dueDay, card.closingDay, IsPaidAsWritten(expenses)),
                            ExpenseRows(expenses, s.categories)))
  }

  /**
   * An invoice whose charges of the caller are all still pending, with at
   * least one of them, is reported paid by the handler as written and
   * unpaid by the corrected one.
   */
  lemma UnpaidInvoiceReportedPaid(s: Snapshot, userId: Id, cardId: Id, month: string, y: int, m0: int, k: nat, i: nat)
    requires ParseMonth(month) == Some((y, m0))
    requires FindOwnedCard(s.cards, cardId, userId) == Some(k)
    requires forall j :: 0 <= j < |s.transactions| ==>
               OnCallersInvoice(s.transactions[j], cardId, userId, InvoiceDate(y, m0, s.cards[k].dueDay)) ==>
               !s.transactions[j].effectived
    requires i < |s.transactions| && OnCallersInvoice(s.transactions[i], cardId, userId, InvoiceDate(y, m0, s.cards[k].dueDay))
    ensures FetchInvoiceAsWritten(s, userId, cardId, month).Success?
    ensures FetchInvoiceAsWritten(s, userId, cardId, month).value.invoice.isPaid
    ensures !FetchInvoice(s, userId, cardId, month).value.invoice.isPaid
  {
    var date := InvoiceDate(y, m0, s.cards[k].dueDay);
    var selected := InvoiceExpenses(s.transactions, cardId, userId, date);
    forall j | 0 <= j < |selected| ensures !selected[j].effectived {
      assert selected[j] in s.transactions;
    }
    assert s.transactions[i] in selected;
  }

  /** Whether every charge is pending, or every charge is effectived, does not depend on their order. */
  lemma PaidFlagIgnoresOrder(a: seq<Transaction>, b: seq<Transaction>)
    requires multiset(a) == multiset(b)
    ensures IsPaidAsWritten(a) == IsPaidAsWritten(b)
    ensures IsPaid(a) == IsPaid(b)
  {
    forall i | 0 <= i < |a| ensures a[i] in b {
      assert a[i] in multiset(a);
    }
    forall i | 0 <= i < |b| ensures b[i] in a {
      assert b[i] in multiset(b);
    }
  }

  /** Sorting the selected charges keeps their number, their total and both paid flags. */
  lemma ListingKeepsTotals(s: Snapshot, cardId: Id, userId: Id, date: DateTime)
    ensures var listed := ListedExpenses(s, cardId, userId, date);
            var selected := InvoiceExpenses(s.transactions, cardId, userId, date);
            && |listed| == |selected|
            && SumAmounts(listed) == SumAmounts(selected)
            && IsPaid(listed) == IsPaid(selected)
            && IsPaidAsWritten(listed) == IsPaidAsWritten(selected)
  {
    var listed := ListedExpenses(s, cardId, userId, date);
    var selected := InvoiceExpenses(s.transactions, cardId, userId, date);
    SumAmountsPermutation(listed, selected);
    PaidFlagIgnoresOrder(listed, selected);
    assert |listed| == |multiset(listed)| == |multiset(selected)| == |selected|;
  }

  /** The rows shown are the listed expenses one by one, newest first. */
  lemma RowsFollowListing(s: Snapshot, userId: Id, cardId: Id, month: string, y: int, m0: int, k: nat)
    requires ParseMonth(month) == Some((y, m0))
    requires FindOwnedCard(s.cards, cardId, userId) == Some(k)
    ensures var r := FetchInvoice(s, userId, cardId, month);
            var listed := ListedExpenses(s, cardId, userId, InvoiceDate(y, m0, s.cards[k].dueDay));
            && r.Success?
            && |r.value.expenses| == |listed|
            && (forall i :: 0 <= i < |listed| ==> r.value.expenses[i] == ExpenseRowOf(listed[i], s.categories))
            && (forall i, j :: 0 <= i < j < |listed| ==>
                  AtOrBefore(r.value.expenses[j].dueDate, r.value.expenses[i].dueDate))
  {
  }

  /** An invoice with no charge of the caller totals 0, lists nothing and counts as paid. */
  lemma EmptyInvoice(s: Snapshot, userId: Id, cardId: Id, month: string, y: int, m0: int, k: nat)
    requires ParseMonth(month) == Some((y, m0))
    requires FindOwnedCard(s.cards, cardId, userId) == Some(k)
    requires forall i :: 0 <= i < |s.transactions| ==>
               !OnCallersInvoice(s.transactions[i], cardId, userId, InvoiceDate(y, m0, s.cards[k].dueDay))
    ensures var r := FetchInvoice(s, userId, cardId, month);
            && r.Success? && r.value.invoice.totalAmount == 0 && r.value.invoice.isPaid && r.value.expenses == []
            && IsPaidAsWritten(InvoiceExpenses(s.transactions, cardId, userId, InvoiceDate(y, m0, s.cards[k].dueDay)))
  {
  }

  /**
   * The `isPaid` flag as written: once the invoice has been paid every
   * listed charge is effectived, so for a paid invoice with at least one
   * charge of the caller the handler's reply says unpaid, while the
   * corrected reply says paid.
   */
  lemma PaidInvoiceReportedUnpaid(s: Snapshot, userId: Id, cardId: Id, month: string, y: int, m0: int, k: nat, i: nat)
    requires ParseMonth(month) == Some((y, m0))
    requires FindOwnedCard(s.cards, cardId, userId) == Some(k)
    requires PayInvoice(s, userId, cardId, month).0 == Created
    requires i < |s.transactions| && OnCallersInvoice(s.transactions[i], cardId, userId, InvoiceDate(y, m0, s.cards[k].dueDay))
    ensures var after := PayInvoice(s, userId, cardId, month).1;
            var r := FetchInvoice(after, userId, cardId, month);
            && !IsPaidAsWritten(InvoiceExpenses(after.transactions, cardId, userId, InvoiceDate(y, m0, s.cards[k].dueDay)))
            && FetchInvoiceAsWritten(after, userId, cardId, month).Success?
            && !FetchInvoiceAsWritten(after, userId, cardId, month).value.invoice.isPaid
            && r.Success? && r.value.invoice.isPaid
  {
    CardFoundAfterPayment(s, userId, cardId, month, y, m0, k);
    SettledInvoiceNotPaidAsWritten(s.transactions, cardId, userId, InvoiceDate(y, m0, s.cards[k].dueDay), i);
    PaidInvoiceIsPaid(s, userId, cardId, month, y, m0, k);
  }

  /** A settled invoice with a charge of the caller fails the handler's flag: that charge is effectived. */
  lemma SettledInvoiceNotPaidAsWritten(txs: seq<Transaction>, cardId: Id, userId: Id, date: DateTime, i: nat)
    requires i < |txs| && OnCallersInvoice(txs[i], cardId, userId, date)
    ensures !IsPaidAsWritten(InvoiceExpenses(SettleInvoice(txs, cardId, date), cardId, userId, date))
  {
    var settled := SettleInvoice(txs, cardId, date);
    var selected := InvoiceExpenses(settled, cardId, userId, date);
    assert settled[i] in selected;
    var j :| 0 <= j < |selected| && selected[j] == settled[i];
  }

  /** Once an invoice is settled, every charge of the caller on it is effectived. */
  lemma SettledInvoiceIsPaid(txs: seq<Transaction>, cardId: Id, userId: Id, date: DateTime)
    ensures IsPaid(InvoiceExpenses(SettleInvoice(txs, cardId, date), cardId, userId, date))
  {
    var settled := SettleInvoice(txs, cardId, date);
    SettledChargesAreEffectived(txs, cardId, date);
    var selected := InvoiceExpenses(settled, cardId, userId, date);
    forall i | 0 <= i < |selected| ensures selected[i].effectived {
      assert selected[i] in settled;
    }
  }

  /** After a payment every charge on the invoice is effectived, and the view reports the invoice paid. */
  lemma PaidInvoiceIsPaid(s: Snapshot, userId: Id, cardId: Id, month: string, y: int, m0: int, k: nat)
    requires ParseMonth(month) == Some((y, m0))
    requires FindOwnedCard(s.cards, cardId, userId) == Some(k)
    requires PayInvoice(s, userId, cardId, month).0 == Created
    ensures var after := PayInvoice(s, userId, cardId, month).1;
            var date := InvoiceDate(y, m0, s.cards[k].dueDay);
            && |after.transactions| == |s.transactions|
            && (forall i :: 0 <= i < |s.transactions| && OnInvoice(s.transactions[i], cardId, date) ==>
                  after.transactions[i] == s.transactions[i].(effectived := true))
            && IsPaid(InvoiceExpenses(after.transactions, cardId, userId, date))
            && FetchInvoice(after, userId, cardId, month).Success?
            && FetchInvoice(after, userId, cardId, month).value.invoice.isPaid
  {
    var date := InvoiceDate(y, m0, s.cards[k].dueDay);
    CardFoundAfterPayment(s, userId, cardId, month, y, m0, k);
    SettledInvoiceIsPaid(s.transactions, cardId, userId, date);
  }
}
