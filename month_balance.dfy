/**
 * `GET /transactions/:userId/balance`: the user's incomes, expenses and
 * their difference over one calendar month, the month's first and last
 * instants both included.
 */
module MonthBalance {
  import opened Common
  import opened Calendar
  import opened Entities
  import opened Store
  import opened MonthQuery
  import GetTotalAmount

  /** A range of due dates: from `start` on, up to `end` inclusive or exclusive. */
  datatype Window = Window(start: DateTime, end: DateTime, endIncluded: bool)

  predicate InWindow(d: DateTime, w: Window) {
    AtOrBefore(w.start, d) && (if w.endIncluded then AtOrBefore(d, w.end) else Before(d, w.end))
  }

  /** The window of this handler, `gte: startOfMonth`, `lte: endOfMonth`: the month's first through its last instant. */
  function ClosedMonth(y: int, m0: int): (w: Window)
    requires 0 <= m0 < 12
    ensures w.start == StartOfMonth(y, m0) && w.end == EndOfMonth(y, m0) && w.endIncluded
  {
    Window(StartOfMonth(y, m0), EndOfMonth(y, m0), true)
  }

  /**
   * `aggregate({ where: { userId, dueDate in window, type }, _sum: { amount } })`,
   * an empty sum being 0 (`|| 0`); it is never negative when no amount is.
   */
  function WindowSum(txs: seq<Transaction>, userId: Id, k: TxKind, w: Window): (r: int)
    ensures (forall i :: 0 <= i < |txs| ==> !(txs[i].userId == userId && txs[i].kind == k && InWindow(txs[i].dueDate, w)))
            ==> r == 0
    ensures (forall i :: 0 <= i < |txs| ==> txs[i].amount >= 0) ==> r >= 0
  {
    if txs == [] then 0
    else
      var t := txs[|txs| - 1];
      WindowSum(txs[..|txs| - 1], userId, k, w)
      + (if t.userId == userId && t.kind == k && InWindow(t.dueDate, w) then t.amount else 0)
  }

  /** The user's transactions due inside the window, in ledger order: exactly those, and no more rows than the ledger has. */
  function InWindowOf(txs: seq<Transaction>, userId: Id, w: Window): (r: seq<Transaction>)
    ensures |r| <= |txs|
    ensures forall t :: t in r <==> t in txs && t.userId == userId && InWindow(t.dueDate, w)
  {
    if txs == [] then []
    else
      var t := txs[|txs| - 1];
      assert txs == txs[..|txs| - 1] + [t];
      InWindowOf(txs[..|txs| - 1], userId, w) + (if t.userId == userId && InWindow(t.dueDate, w) then [t] else [])
  }

  /** The aggregate over a type is the plain sum of that type's amounts among the user's transactions in the window. */
  lemma {:induction false} WindowSumIsSumOfListed(txs: seq<Transaction>, userId: Id, k: TxKind, w: Window)
    ensures WindowSum(txs, userId, k, w) == SumAmounts(GetTotalAmount.OfKind(InWindowOf(txs, userId, w), k))
    decreases |txs|
  {
    if txs != [] {
      var init, t := txs[..|txs| - 1], txs[|txs| - 1];
      WindowSumIsSumOfListed(init, userId, k, w);
      var l0 := InWindowOf(init, userId, w);
      if t.userId == userId && InWindow(t.dueDate, w) {
        assert InWindowOf(txs, userId, w) == l0 + [t];
        assert WindowSum(txs, userId, k, w) == WindowSum(init, userId, k, w) + (if t.kind == k then t.amount else 0);
        GetTotalAmount.SumOfKindSnoc(l0, t, k);
      } else {
        assert InWindowOf(txs, userId, w) == l0 + [] == l0;
        assert WindowSum(txs, userId, k, w) == WindowSum(init, userId, k, w);
      }
    }
  }

  datatype Totals = Totals(totalIncome: int, totalExpense: int, balance: int)

  /** The totals of the user's incomes and expenses over a window. */
  function WindowTotals(txs: seq<Transaction>, userId: Id, w: Window): (r: Totals)
    ensures r.balance == r.totalIncome - r.totalExpense
  {
    var income := WindowSum(txs, userId, Income, w);
    var expense := WindowSum(txs, userId, Expense, w);
    Totals(income, expense, income - expense)
  }

  /** The handler: 400 for a malformed month, 404 for an unknown user, else the month's totals. */
  function GetMonthBalance(s: Snapshot, userId: Id, month: string): (r: Reply<Totals>)
    ensures r == Failure(BadRequest) <==> ParseMonth(month).None?
    ensures r == Failure(NotFound) <==> ParseMonth(month).Some? && userId !in s.users
    ensures r.Success? ==>
              var (y, m0) := ParseMonth(month).value;
              var listed := InWindowOf(s.transactions, userId, ClosedMonth(y, m0));
              && r.value.totalIncome == SumAmounts(GetTotalAmount.OfKind(listed, Income))
              && r.value.totalExpense == SumAmounts(GetTotalAmount.OfKind(listed, Expense))
              && r.value.balance == r.value.totalIncome - r.value.totalExpense
  {
    match ParseMonth(month)
    case None => Failure(BadRequest)
    case Some((y, m0)) =>
      if userId !in s.users then Failure(NotFound)
      else
        WindowSumIsSumOfListed(s.transactions, userId, Income, ClosedMonth(y, m0));
        WindowSumIsSumOfListed(s.transactions, userId, Expense, ClosedMonth(y, m0));
        Success(WindowTotals(s.transactions, userId, ClosedMonth(y, m0)))
  }

  /** A valid due date is in the closed window of exactly its own month. */
  lemma ClosedMonthIsCalendarMonth(d: DateTime, y: int, m0: int)
    requires Calendar.Valid(d) && 0 <= m0 < 12
    ensures InWindow(d, ClosedMonth(y, m0)) <==> d.year == y && d.month0 == m0
  {
    WithinMonthBounds(d, y, m0);
  }

  /**
   * The first and the last instant of the month count; the last instant
   * of the month before and the first of the month after do not.
   */
  lemma MonthBoundaries(y: int, m0: int)
    requires 0 <= m0 < 12
    ensures InWindow(StartOfMonth(y, m0), ClosedMonth(y, m0))
    ensures InWindow(EndOfMonth(y, m0), ClosedMonth(y, m0))
    ensures !InWindow(PrevInstant(StartOfMonth(y, m0)), ClosedMonth(y, m0))
    ensures !InWindow(StartOfMonth(NextMonth(y, m0).0, NextMonth(y, m0).1), ClosedMonth(y, m0))
  {
    var (ny, nm) := NextMonth(y, m0);
    ClosedMonthIsCalendarMonth(StartOfMonth(ny, nm), y, m0);
    ClosedMonthIsCalendarMonth(PrevInstant(StartOfMonth(y, m0)), y, m0);
  }

  /** Two ledgers that differ only in effectived flags and accounts. */
  predicate SameButFlagAndAccount(txs: seq<Transaction>, txs': seq<Transaction>) {
    |txs| == |txs'| &&
    forall i :: 0 <= i < |txs| ==> txs'[i] == txs[i].(effectived := txs'[i].effectived, accountId := txs'[i].accountId)
  }

  /** Neither the effectived flag nor the account of a transaction influences the totals. */
  lemma {:induction false} FlagAndAccountIgnored(txs: seq<Transaction>, txs': seq<Transaction>, userId: Id, k: TxKind, w: Window)
    requires SameButFlagAndAccount(txs, txs')
    ensures WindowSum(txs, userId, k, w) == WindowSum(txs', userId, k, w)
    decreases |txs|
  {
    if txs != [] {
      var n := |txs| - 1;
      assert SameButFlagAndAccount(txs[..n], txs'[..n]);
      FlagAndAccountIgnored(txs[..n], txs'[..n], userId, k, w);
      assert txs'[n] == txs[n].(effectived := txs'[n].effectived, accountId := txs'[n].accountId);
    }
  }

  /** Recording a transfer or a credit charge leaves the totals as they were. */
  lemma TransfersAndCreditIgnored(txs: seq<Transaction>, t: Transaction, userId: Id, w: Window)
    requires t.kind in {TransferIn, TransferOut, Credit}
    ensures WindowTotals(txs + [t], userId, w) == WindowTotals(txs, userId, w)
  {
    assert (txs + [t])[..|txs|] == txs;
  }

  /** One more row adds its amount to its own type's total when it is the user's and inside the window. */
  lemma WindowTotalsSnoc(txs: seq<Transaction>, t: Transaction, userId: Id, w: Window)
    ensures var before := WindowTotals(txs, userId, w);
            var after := WindowTotals(txs + [t], userId, w);
            var counted := t.userId == userId && InWindow(t.dueDate, w);
            && after.totalIncome == before.totalIncome + (if counted && t.kind == Income then t.amount else 0)
            && after.totalExpense == before.totalExpense + (if counted && t.kind == Expense then t.amount else 0)
  {
    assert (txs + [t])[..|txs|] == txs;
  }

  /** A row of the month-boundary scenario: the user "u"'s transaction on account "acc". */
  function BoundaryRow(id: Id, kind: TxKind, amount: int, d: DateTime): Transaction {
    Transaction(id, "u", "acc", None, None, None, None, None, None, amount, kind, d, None, None, false, false, None, None)
  }

  /** The four boundary rows: only the two inside February count. */
  lemma BoundaryWindowTotals(r1: Transaction, r2: Transaction, r3: Transaction, r4: Transaction)
    requires r1 == BoundaryRow("t1", Income, 500, DateTime(2025, 1, 1, 0))
    requires r2 == BoundaryRow("t2", Expense, 300, DateTime(2025, 1, 28, MsPerDay - 1))
    requires r3 == BoundaryRow("t3", Income, 1000, DateTime(2025, 0, 31, MsPerDay - 1))
    requires r4 == BoundaryRow("t4", Expense, 800, DateTime(2025, 2, 1, 0))
    ensures WindowTotals([r1, r2, r3, r4], "u", ClosedMonth(2025, 1)) == Totals(500, 300, 200)
  {
    var w := ClosedMonth(2025, 1);
    ClosedMonthIsCalendarMonth(r1.dueDate, 2025, 1);
    ClosedMonthIsCalendarMonth(r2.dueDate, 2025, 1);
    ClosedMonthIsCalendarMonth(r3.dueDate, 2025, 1);
    ClosedMonthIsCalendarMonth(r4.dueDate, 2025, 1);
    assert WindowTotals([], "u", w) == Totals(0, 0, 0);
    assert [] + [r1] == [r1] && [r1] + [r2] == [r1, r2] && [r1, r2] + [r3] == [r1, r2, r3];
    assert [r1, r2, r3] + [r4] == [r1, r2, r3, r4];
    WindowTotalsSnoc([], r1, "u", w);
    WindowTotalsSnoc([r1], r2, "u", w);
    WindowTotalsSnoc([r1, r2], r3, "u", w);
    WindowTotalsSnoc([r1, r2, r3], r4, "u", w);
  }

  /**
   * February 2025 with an income of 500 at its first instant, an expense of
   * 300 at its last, an income of 1000 at the last instant of January and an
   * expense of 800 at the first instant of March: 500, 300 and 200.
   */
  lemma BoundaryScenario()
    ensures GetMonthBalance(Snapshot({"u"}, [], [
              BoundaryRow("t1", Income, 500, DateTime(2025, 1, 1, 0)),
              BoundaryRow("t2", Expense, 300, DateTime(2025, 1, 28, MsPerDay - 1)),
              BoundaryRow("t3", Income, 1000, DateTime(2025, 0, 31, MsPerDay - 1)),
              BoundaryRow("t4", Expense, 800, DateTime(2025, 2, 1, 0))], [], []), "u", "2025-02")
            == Success(Totals(500, 300, 200))
  {
    var r1 := BoundaryRow("t1", Income, 500, DateTime(2025, 1, 1, 0));
    var r2 := BoundaryRow("t2", Expense, 300, DateTime(2025, 1, 28, MsPerDay - 1));
    var r3 := BoundaryRow("t3", Income, 1000, DateTime(2025, 0, 31, MsPerDay - 1));
    var r4 := BoundaryRow("t4", Expense, 800, DateTime(2025, 2, 1, 0));
    BoundaryWindowTotals(r1, r2, r3, r4);
    February2025();
  }
}
