/**
 * `GET /transactions/:userId`: the user's transactions of one month with a
 * summary of their incomes and expenses. Unlike the month balance, the
 * window ends one millisecond before the next month and that end is
 * excluded, so the month's last millisecond is left out.
 */
module FetchTransactions {
  import opened Common
  import opened Calendar
  import opened Entities
  import opened Store
  import opened MonthQuery
  import opened MonthBalance
  import GetTotalAmount

  /**
   * `endDate`: the first instant of the month moved on by one month
   * (`setMonth(getMonth() + 1)`) and then back by one millisecond
   * (`setMilliseconds(-1)`).
   */
  function WindowEnd(y: int, m0: int): (r: DateTime)
    requires 0 <= m0 < 12
    ensures r == EndOfMonth(y, m0)
  {
    var (ny, nm) := NextMonth(y, m0);
    var e := PrevInstant(StartOfMonth(ny, nm));
    assert e == EndOfMonth(y, m0) by {
      if m0 == 11 {
        assert (ny, nm) == (y + 1, 0);
      }
    }
    e
  }

  /**
   * The window of this handler, `gte: startDate`, `lt: endDate`: from the
   * month's first instant up to, not including, its last millisecond.
   */
  function HalfOpenMonth(y: int, m0: int): (w: Window)
    requires 0 <= m0 < 12
    ensures w.start == StartOfMonth(y, m0) && w.end == EndOfMonth(y, m0) && !w.endIncluded
  {
    Window(StartOfMonth(y, m0), WindowEnd(y, m0), false)
  }

  /** A listed transaction with the name of its account (`include: { account: { select: { name } } }`). */
  datatype ListedTransaction = ListedTransaction(transaction: Transaction, accountName: Option<string>)

  datatype Listing = Listing(transactions: seq<ListedTransaction>, summary: Totals)

  function AccountName(accounts: seq<Account>, id: Id): (r: Option<string>)
    ensures r.Some? <==> exists a :: a in accounts && a.id == id
  {
    match FindAccount(accounts, id)
    case None => None
    case Some(k) => Some(accounts[k].name)
  }

  /** The listed rows, each with the name of its account (`include: { account: { select: { name } } }`). */
  function ListRows(listed: seq<Transaction>, accounts: seq<Account>): (r: seq<ListedTransaction>)
    ensures |r| == |listed|
    ensures forall i :: 0 <= i < |listed| ==>
              r[i].transaction == listed[i] && r[i].accountName == AccountName(accounts, listed[i].accountId)
  {
    seq(|listed|, i requires 0 <= i < |listed| => ListedTransaction(listed[i], AccountName(accounts, listed[i].accountId)))
  }

  /** The three aggregates of the window: the INCOME sum, the EXPENSE sum and their difference. */
  function Summary(txs: seq<Transaction>, userId: Id, w: Window): (r: Totals)
    ensures var listed := InWindowOf(txs, userId, w);
            && r.totalIncome == SumAmounts(GetTotalAmount.OfKind(listed, Income))
            && r.totalExpense == SumAmounts(GetTotalAmount.OfKind(listed, Expense))
            && r.balance == r.totalIncome - r.totalExpense
  {
    WindowSumIsSumOfListed(txs, userId, Income, w);
    WindowSumIsSumOfListed(txs, userId, Expense, w);
    WindowTotals(txs, userId, w)
  }

  /** The handler: 400 for a malformed month, 409 for an unknown user, else the listing and its summary. */
  function FetchMonth(s: Snapshot, userId: Id, month: string): (r: Reply<Listing>)
    ensures r == Failure(BadRequest) <==> ParseMonth(month).None?
    ensures r == Failure(Conflict) <==> ParseMonth(month).Some? && userId !in s.users
    ensures r.Success? ==>
              var (y, m0) := ParseMonth(month).value;
              var listed := InWindowOf(s.transactions, userId, HalfOpenMonth(y, m0));
              && |r.value.transactions| == |listed|
              && (forall i :: 0 <= i < |listed| ==> r.value.transactions[i].transaction == listed[i])
              && r.value.summary.totalIncome == SumAmounts(GetTotalAmount.OfKind(listed, Income))
              && r.value.summary.totalExpense == SumAmounts(GetTotalAmount.OfKind(listed, Expense))
              && r.value.summary.balance == r.value.summary.totalIncome - r.value.summary.totalExpense
  {
    match ParseMonth(month)
    case None => Failure(BadRequest)
    case Some((y, m0)) =>
      if userId !in s.users then Failure(Conflict)
      else
        var w := HalfOpenMonth(y, m0);
        Success(Listing(ListRows(InWindowOf(s.transactions, userId, w), s.accounts), Summary(s.transactions, userId, w)))
  }

  /**
   * The two windows differ in one instant only: a valid due date is in
   * this handler's window exactly when it is in the month balance's window
   * and is not the month's last millisecond.
   */
  lemma LastMillisecondExcluded(d: DateTime, y: int, m0: int)
    requires Calendar.Valid(d) && 0 <= m0 < 12
    ensures InWindow(d, HalfOpenMonth(y, m0)) <==> InWindow(d, ClosedMonth(y, m0)) && d != EndOfMonth(y, m0)
  {
    ClosedMonthIsCalendarMonth(d, y, m0);
    if InWindow(d, ClosedMonth(y, m0)) && d != EndOfMonth(y, m0) {
      assert d.day < DaysInMonth(y, m0) || d.ms < MsPerDay - 1;
    }
  }

  /** The listing holds the user's transactions dated from the month's start up to, not including, its last millisecond. */
  lemma ListedAreTheMonths(s: Snapshot, userId: Id, y: int, m0: int)
    requires 0 <= m0 < 12
    ensures forall t :: t in InWindowOf(s.transactions, userId, HalfOpenMonth(y, m0))
                        <==> t in s.transactions && t.userId == userId
                             && AtOrBefore(StartOfMonth(y, m0), t.dueDate) && Before(t.dueDate, EndOfMonth(y, m0))
  {
  }

  /**
   * The month's last millisecond counts in the month balance but is left
   * out of this listing and its summary.
   */
  lemma LastMillisecondScenario(t: Transaction, y: int, m0: int)
    requires 0 <= m0 < 12 && t.dueDate == EndOfMonth(y, m0) && t.kind == Income
    ensures WindowTotals([t], t.userId, ClosedMonth(y, m0)).totalIncome == t.amount
    ensures WindowTotals([t], t.userId, HalfOpenMonth(y, m0)).totalIncome == 0
  {
    assert [t][..0] == [];
    MonthBoundaries(y, m0);
    assert !InWindow(t.dueDate, HalfOpenMonth(y, m0));
    assert WindowSum([t], t.userId, Income, ClosedMonth(y, m0)) == t.amount;
    assert WindowSum([t], t.userId, Income, HalfOpenMonth(y, m0)) == 0;
  }
}
