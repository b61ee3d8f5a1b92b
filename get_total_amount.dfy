/**
 * `GET /totalAmount/:userId`: the sum over the user's accounts of each
 * account's balance at the end of the queried month, labelled by where the
 * queried month stands relative to the current one.
 */
module GetTotalAmount {
  import opened Common
  import opened Calendar
  import opened Entities
  import opened Store
  import opened MonthQuery

  /** The three labels: SALDO_ATÉ_O_FIM_DO_MÊS, SALDO_ATUAL_EM_CONTAS and SALDO_PREVISTO. */
  datatype BalanceLabel = BalanceUntilEndOfMonth | CurrentBalanceInAccounts | ProjectedBalance

  datatype TotalAmount = TotalAmount(accountsType: BalanceLabel, total: int)

  /**
   * `defineTotalAmountAccountsType`: only the month index (`getMonth()`)
   * of the month end and of now are compared; the year plays no part.
   */
  function DefineTotalAmountAccountsType(monthEnd: DateTime, now: DateTime): (r: BalanceLabel)
    ensures r == CurrentBalanceInAccounts <==> monthEnd.month0 == now.month0
    ensures r == BalanceUntilEndOfMonth <==> monthEnd.month0 < now.month0
    ensures r == ProjectedBalance <==> monthEnd.month0 > now.month0
  {
    if monthEnd.month0 == now.month0 then CurrentBalanceInAccounts
    else if monthEnd.month0 < now.month0 then BalanceUntilEndOfMonth
    else ProjectedBalance
  }

  /**
   * `isCurrentOrPastMonth`, again on the month index alone: the flag that
   * switches the effectived filter on is exactly the two non-projected labels.
   */
  predicate IsCurrentOrPastMonth(monthEnd: DateTime, now: DateTime)
    ensures IsCurrentOrPastMonth(monthEnd, now)
            <==> DefineTotalAmountAccountsType(monthEnd, now) in {BalanceUntilEndOfMonth, CurrentBalanceInAccounts}
  {
    monthEnd.month0 <= now.month0
  }

  /** Neither the label nor the effectived filter depends on the year of the month end or of now. */
  lemma YearIsIgnored(monthEnd: DateTime, now: DateTime, y1: int, y2: int)
    ensures DefineTotalAmountAccountsType(monthEnd.(year := y1), now.(year := y2))
            == DefineTotalAmountAccountsType(monthEnd, now)
    ensures IsCurrentOrPastMonth(monthEnd.(year := y1), now.(year := y2))
            == IsCurrentOrPastMonth(monthEnd, now)
  {
  }

  /**
   * The label as evidently intended: the queried month is past, current or
   * future by calendar month, the year included.
   */
  function LabelByMonth(monthEnd: DateTime, now: DateTime): (r: BalanceLabel)
    ensures r == CurrentBalanceInAccounts <==> MonthIndex(monthEnd.year, monthEnd.month0) == MonthIndex(now.year, now.month0)
    ensures r == BalanceUntilEndOfMonth <==> MonthIndex(monthEnd.year, monthEnd.month0) < MonthIndex(now.year, now.month0)
    ensures r == ProjectedBalance <==> MonthIndex(monthEnd.year, monthEnd.month0) > MonthIndex(now.year, now.month0)
  {
    var q, n := MonthIndex(monthEnd.year, monthEnd.month0), MonthIndex(now.year, now.month0);
    if q == n then CurrentBalanceInAccounts
    else if q < n then BalanceUntilEndOfMonth
    else ProjectedBalance
  }

  /**
   * The effectived filter as evidently intended: on for the current month
   * and every earlier one, which is exactly the two non-projected corrected
   * labels.
   */
  predicate IsCurrentOrPastByMonth(monthEnd: DateTime, now: DateTime)
    ensures IsCurrentOrPastByMonth(monthEnd, now)
            <==> LabelByMonth(monthEnd, now) in {BalanceUntilEndOfMonth, CurrentBalanceInAccounts}
  {
    MonthIndex(monthEnd.year, monthEnd.month0) <= MonthIndex(now.year, now.month0)
  }

  /** Within one year the corrected label and filter are the handler's. */
  lemma CorrectedAgreesWithinAYear(monthEnd: DateTime, now: DateTime)
    requires monthEnd.year == now.year
    ensures LabelByMonth(monthEnd, now) == DefineTotalAmountAccountsType(monthEnd, now)
    ensures IsCurrentOrPastByMonth(monthEnd, now) == IsCurrentOrPastMonth(monthEnd, now)
  {
  }

  /**
   * December 2024 queried on 9 February 2025: the handler labels it a
   * projection and counts pending transactions, because 11 > 1, while the
   * month is in the past.
   */
  lemma PastDecemberLabelledProjected()
    ensures DefineTotalAmountAccountsType(EndOfMonth(2024, 11), DateTime(2025, 1, 9, 36_000_000)) == ProjectedBalance
    ensures !IsCurrentOrPastMonth(EndOfMonth(2024, 11), DateTime(2025, 1, 9, 36_000_000))
    ensures LabelByMonth(EndOfMonth(2024, 11), DateTime(2025, 1, 9, 36_000_000)) == BalanceUntilEndOfMonth
    ensures IsCurrentOrPastByMonth(EndOfMonth(2024, 11), DateTime(2025, 1, 9, 36_000_000))
  {
  }

  /**
   * One row's term of the SQL `CASE`: a counted INCOME adds its amount, a
   * counted EXPENSE subtracts it, and transfers and card charges, rows due
   * after the month's end and, with the filter on, pending rows add nothing.
   */
  function Contribution(t: Transaction, monthEnd: DateTime, currentOrPast: bool): (r: int)
    ensures t.kind !in {Income, Expense} ==> r == 0
    ensures !AtOrBefore(t.dueDate, monthEnd) ==> r == 0
    ensures currentOrPast && !t.effectived ==> r == 0
    ensures AtOrBefore(t.dueDate, monthEnd) && (t.effectived || !currentOrPast) ==>
              (t.kind == Income ==> r == t.amount) && (t.kind == Expense ==> r == -t.amount)
  {
    if AtOrBefore(t.dueDate, monthEnd) && (!currentOrPast || t.effectived) then
      match t.kind
      case Income => t.amount
      case Expense => -t.amount
      case _ => 0
    else 0
  }

  /**
   * `COALESCE(SUM(CASE ...), 0)` over the transactions joined to one account:
   * an account no transaction refers to aggregates to 0.
   */
  function SumContributions(txs: seq<Transaction>, accountId: Id, monthEnd: DateTime, currentOrPast: bool): (r: int)
    ensures (forall t :: t in txs ==> t.accountId != accountId) ==> r == 0
  {
    if txs == [] then 0
    else
      var t := txs[|txs| - 1];
      SumContributions(txs[..|txs| - 1], accountId, monthEnd, currentOrPast)
      + (if t.accountId == accountId then Contribution(t, monthEnd, currentOrPast) else 0)
  }

  /**
   * The account's balance row: initial balance plus the aggregated
   * contributions, so an account without movements shows its initial balance.
   */
  function AccountBalance(a: Account, txs: seq<Transaction>, monthEnd: DateTime, currentOrPast: bool): (r: int)
    ensures (forall t :: t in txs ==> t.accountId != a.id) ==> r == a.initialBalance
  {
    a.initialBalance + SumContributions(txs, a.id, monthEnd, currentOrPast)
  }

  /** The `reduce` over the rows of the accounts whose owner is the user, starting from 0: a user without accounts totals 0. */
  function TotalOfAccounts(accounts: seq<Account>, userId: Id, txs: seq<Transaction>,
                           monthEnd: DateTime, currentOrPast: bool): (r: int)
    ensures (forall i :: 0 <= i < |accounts| ==> accounts[i].userId != userId) ==> r == 0
  {
    if accounts == [] then 0
    else
      var a := accounts[|accounts| - 1];
      TotalOfAccounts(accounts[..|accounts| - 1], userId, txs, monthEnd, currentOrPast)
      + (if a.userId == userId then AccountBalance(a, txs, monthEnd, currentOrPast) else 0)
  }

  /**
   * The handler: 400 for a malformed month, 409 for an unknown user, else
   * the labelled total, with the label and the effectived filter taken by
   * calendar month (`LabelByMonth`, `IsCurrentOrPastByMonth`).
   */
  function GetTotalAmount(s: Snapshot, userId: Id, month: string, now: DateTime): (r: Reply<TotalAmount>)
    ensures ParseMonth(month).None? ==> r == Failure(BadRequest)
    ensures ParseMonth(month).Some? && userId !in s.users ==> r == Failure(Conflict)
    ensures ParseMonth(month).Some? && userId in s.users ==>
              var (y, m0) := ParseMonth(month).value;
              var monthEnd := EndOfMonth(y, m0);
              var currentOrPast := MonthIndex(y, m0) <= MonthIndex(now.year, now.month0);
              && r.Success?
              && r.value.accountsType == LabelByMonth(monthEnd, now)
              && r.value.total == ReferenceTotal(AccountsOf(s.accounts, userId),
                                                 s.transactions, monthEnd, currentOrPast)
  {
    match ParseMonth(month)
    case None => Failure(BadRequest)
    case Some((y, m0)) =>
      if userId !in s.users then Failure(Conflict)
      else
        var monthEnd := EndOfMonth(y, m0);
        var currentOrPast := IsCurrentOrPastByMonth(monthEnd, now);
        var total := TotalOfAccounts(s.accounts, userId, s.transactions, monthEnd, currentOrPast);
        TotalOfAccountsIsReference(s.accounts, userId, s.transactions, monthEnd, currentOrPast);
        Success(TotalAmount(LabelByMonth(monthEnd, now), total))
  }

  /**
   * The handler's reply as written: the label by `DefineTotalAmountAccountsType`
   * and the effectived filter by `IsCurrentOrPastMonth`, both on the month
   * index alone.
   */
  function GetTotalAmountAsWritten(s: Snapshot, userId: Id, month: string, now: DateTime): (r: Reply<TotalAmount>)
    ensures ParseMonth(month).None? ==> r == Failure(BadRequest)
    ensures ParseMonth(month).Some? && userId !in s.users ==> r == Failure(Conflict)
    ensures ParseMonth(month).Some? && userId in s.users ==>
              var (y, m0) := ParseMonth(month).value;
              var monthEnd := EndOfMonth(y, m0);
              && r.Success?
              && r.value.accountsType == DefineTotalAmountAccountsType(monthEnd, now)
              && r.value.total == ReferenceTotal(AccountsOf(s.accounts, userId),
                                                 s.transactions, monthEnd, m0 <= now.month0)
  {
    match ParseMonth(month)
    case None => Failure(BadRequest)
    case Some((y, m0)) =>
      if userId !in s.users then Failure(Conflict)
      else
        var monthEnd := EndOfMonth(y, m0);
        var currentOrPast := IsCurrentOrPastMonth(monthEnd, now);
        var total := TotalOfAccounts(s.accounts, userId, s.transactions, monthEnd, currentOrPast);
        TotalOfAccountsIsReference(s.accounts, userId, s.transactions, monthEnd, currentOrPast);
        Success(TotalAmount(DefineTotalAmountAccountsType(monthEnd, now), total))
  }

  /** When the queried year is the current one, the handler as written and the corrected one answer alike. */
  lemma AsWrittenAgreesWithinAYear(s: Snapshot, userId: Id, month: string, now: DateTime)
    requires ParseMonth(month).Some? && ParseMonth(month).value.0 == now.year
    ensures GetTotalAmountAsWritten(s, userId, month, now) == GetTotalAmount(s, userId, month, now)
  {
    var (y, m0) := ParseMonth(month).value;
    CorrectedAgreesWithinAYear(EndOfMonth(y, m0), now);
  }

  // ----- Reference definitions: filters and plain sums -----

  /** Whether the balance of the account counts the transaction at all. */
  predicate Counted(t: Transaction, accountId: Id, monthEnd: DateTime, currentOrPast: bool) {
    t.accountId == accountId && AtOrBefore(t.dueDate, monthEnd) && (!currentOrPast || t.effectived)
  }

  /** The account's transactions that the balance counts, in ledger order. */
  function Qualifying(txs: seq<Transaction>, accountId: Id, monthEnd: DateTime, currentOrPast: bool): (r: seq<Transaction>)
    ensures forall t :: t in r <==> t in txs && Counted(t, accountId, monthEnd, currentOrPast)
  {
    if txs == [] then []
    else
      var t := txs[|txs| - 1];
      Qualifying(txs[..|txs| - 1], accountId, monthEnd, currentOrPast)
      + (if Counted(t, accountId, monthEnd, currentOrPast) then [t] else [])
  }

  /** The transactions of one type, in ledger order. */
  function OfKind(txs: seq<Transaction>, k: TxKind): (r: seq<Transaction>)
    ensures |r| <= |txs|
  {
    if txs == [] then []
    else OfKind(txs[..|txs| - 1], k) + (if txs[|txs| - 1].kind == k then [txs[|txs| - 1]] else [])
  }

  /** initialBalance + Σ INCOME − Σ EXPENSE over the qualifying transactions. */
  function ReferenceBalance(a: Account, txs: seq<Transaction>, monthEnd: DateTime, currentOrPast: bool): int {
    var q := Qualifying(txs, a.id, monthEnd, currentOrPast);
    a.initialBalance + SumAmounts(OfKind(q, Income)) - SumAmounts(OfKind(q, Expense))
  }

  /** The accounts owned by the user, in table order (`WHERE a."userId" = userId`). */
  function AccountsOf(accounts: seq<Account>, userId: Id): (r: seq<Account>)
    ensures forall a :: a in r <==> a in accounts && a.userId == userId
  {
    if accounts == [] then []
    else
      var a := accounts[|accounts| - 1];
      AccountsOf(accounts[..|accounts| - 1], userId) + (if a.userId == userId then [a] else [])
  }

  function ReferenceTotal(accounts: seq<Account>, txs: seq<Transaction>, monthEnd: DateTime, currentOrPast: bool): int {
    if accounts == [] then 0
    else ReferenceTotal(accounts[..|accounts| - 1], txs, monthEnd, currentOrPast)
         + ReferenceBalance(accounts[|accounts| - 1], txs, monthEnd, currentOrPast)
  }

  /** Appending one transaction adds its amount to the sum of its own type and nothing to the others. */
  lemma SumOfKindSnoc(q: seq<Transaction>, t: Transaction, k: TxKind)
    ensures SumAmounts(OfKind(q + [t], k)) == SumAmounts(OfKind(q, k)) + (if t.kind == k then t.amount else 0)
  {
    var s := q + [t];
    assert s[..|s| - 1] == q;
    var o := OfKind(q, k) + [t];
    if t.kind == k {
      assert o[..|o| - 1] == OfKind(q, k);
    } else {
      assert OfKind(s, k) == OfKind(q, k) + [] == OfKind(q, k);
    }
  }

  /** One more transaction moves the account's balance by its CASE term. */
  lemma QualifyingSnoc(txs: seq<Transaction>, accountId: Id, monthEnd: DateTime, currentOrPast: bool)
    requires txs != []
    ensures var t := txs[|txs| - 1];
            var q0 := Qualifying(txs[..|txs| - 1], accountId, monthEnd, currentOrPast);
            Qualifying(txs, accountId, monthEnd, currentOrPast)
            == if Counted(t, accountId, monthEnd, currentOrPast) then q0 + [t] else q0
  {
    var q0 := Qualifying(txs[..|txs| - 1], accountId, monthEnd, currentOrPast);
    assert q0 + [] == q0;
  }

  /** The CASE aggregation is the initial balance plus the qualifying incomes minus the qualifying expenses. */
  lemma {:induction false} BalanceIsIncomeMinusExpense(a: Account, txs: seq<Transaction>, monthEnd: DateTime, currentOrPast: bool)
    ensures AccountBalance(a, txs, monthEnd, currentOrPast) == ReferenceBalance(a, txs, monthEnd, currentOrPast)
    decreases |txs|
  {
    if txs != [] {
      var init, t := txs[..|txs| - 1], txs[|txs| - 1];
      BalanceIsIncomeMinusExpense(a, init, monthEnd, currentOrPast);
      QualifyingSnoc(txs, a.id, monthEnd, currentOrPast);
      var c := if t.accountId == a.id then Contribution(t, monthEnd, currentOrPast) else 0;
      assert AccountBalance(a, txs, monthEnd, currentOrPast) == AccountBalance(a, init, monthEnd, currentOrPast) + c;
      var q0 := Qualifying(init, a.id, monthEnd, currentOrPast);
      if Counted(t, a.id, monthEnd, currentOrPast) {
        SumOfKindSnoc(q0, t, Income);
        SumOfKindSnoc(q0, t, Expense);
        assert ReferenceBalance(a, txs, monthEnd, currentOrPast)
               == ReferenceBalance(a, init, monthEnd, currentOrPast)
                  + (if t.kind == Income then t.amount else 0) - (if t.kind == Expense then t.amount else 0);
      } else {
        assert c == 0;
        assert Qualifying(txs, a.id, monthEnd, currentOrPast) == q0;
      }
    }
  }

  /** The handler's total is the sum of the reference balances of the user's accounts only. */
  lemma {:induction false} TotalOfAccountsIsReference(accounts: seq<Account>, userId: Id, txs: seq<Transaction>,
                                                       monthEnd: DateTime, currentOrPast: bool)
    ensures TotalOfAccounts(accounts, userId, txs, monthEnd, currentOrPast)
            == ReferenceTotal(AccountsOf(accounts, userId), txs, monthEnd, currentOrPast)
    decreases |accounts|
  {
    if accounts != [] {
      var init, a := accounts[..|accounts| - 1], accounts[|accounts| - 1];
      TotalOfAccountsIsReference(init, userId, txs, monthEnd, currentOrPast);
      BalanceIsIncomeMinusExpense(a, txs, monthEnd, currentOrPast);
      var f := AccountsOf(accounts, userId);
      if a.userId == userId {
        assert f[..|f| - 1] == AccountsOf(init, userId);
      } else {
        assert f == AccountsOf(init, userId) + [] == AccountsOf(init, userId);
      }
    }
  }

  /** Transfers, credit purchases and transactions dated after the month end never move a balance. */
  lemma {:induction false} NeutralTransactionsLeaveInitialBalance(a: Account, txs: seq<Transaction>,
                                                                   monthEnd: DateTime, currentOrPast: bool)
    requires forall t :: t in txs ==> t.kind in {TransferIn, TransferOut, Credit} || Before(monthEnd, t.dueDate)
    ensures AccountBalance(a, txs, monthEnd, currentOrPast) == a.initialBalance
    decreases |txs|
  {
    if txs != [] {
      assert forall t :: t in txs[..|txs| - 1] ==> t in txs;
      NeutralTransactionsLeaveInitialBalance(a, txs[..|txs| - 1], monthEnd, currentOrPast);
    }
  }

  /** Two ledgers that differ only in their effectived flags. */
  predicate SameButEffectived(txs: seq<Transaction>, txs': seq<Transaction>) {
    |txs| == |txs'| && forall i :: 0 <= i < |txs| ==> txs'[i] == txs[i].(effectived := txs'[i].effectived)
  }

  /** For a future month the effectived flag is ignored. */
  lemma {:induction false} ProjectionIgnoresEffectived(a: Account, txs: seq<Transaction>, txs': seq<Transaction>, monthEnd: DateTime)
    requires SameButEffectived(txs, txs')
    ensures AccountBalance(a, txs, monthEnd, false) == AccountBalance(a, txs', monthEnd, false)
    decreases |txs|
  {
    if txs != [] {
      var n := |txs| - 1;
      assert SameButEffectived(txs[..n], txs'[..n]);
      ProjectionIgnoresEffectived(a, txs[..n], txs'[..n], monthEnd);
      assert txs'[n] == txs[n].(effectived := txs'[n].effectived);
    }
  }

  // ----- The three end-to-end scenarios, with now = 9 February 2025 10:00 -----

  /** A transaction of the scenarios' single account "acc" of user "u". */
  function ScenarioRow(id: Id, kind: TxKind, amount: int, y: int, m0: int, d: int, effectived: bool): Transaction {
    Transaction(id, "u", "acc", None, None, None, None, None, None, amount, kind,
                DateTime(y, m0, d, 0), None, None, effectived, false, None, None)
  }

  function ScenarioLedger(txs: seq<Transaction>): Snapshot {
    Snapshot({"u"}, [Account("acc", "u", "Conta", Bank, 12500)], txs, [], [])
  }

  const ScenarioNow: DateTime := DateTime(2025, 1, 9, 36_000_000)

  /** The scenario ledger's total is its one account's balance. */
  lemma ScenarioTotal(txs: seq<Transaction>, y: int, m0: int, month: string)
    requires 0 <= y <= 9999 && 0 <= m0 < 12 && month == FormatMonth(y, m0)
    ensures GetTotalAmount(ScenarioLedger(txs), "u", month, ScenarioNow)
            == Success(TotalAmount(LabelByMonth(EndOfMonth(y, m0), ScenarioNow),
                                   12500 + SumContributions(txs, "acc", EndOfMonth(y, m0),
                                                            MonthIndex(y, m0) <= MonthIndex(2025, 1))))
  {
    ParseFormat(y, m0);
    var s := ScenarioLedger(txs);
    assert s.accounts[..0] == [];
    var monthEnd := EndOfMonth(y, m0);
    var cop := MonthIndex(y, m0) <= MonthIndex(2025, 1);
    assert TotalOfAccounts(s.accounts, "u", txs, monthEnd, cop) == 12500 + SumContributions(txs, "acc", monthEnd, cop);
  }

  /** One more row adds its CASE term to the account's aggregate. */
  lemma SumContributionsSnoc(init: seq<Transaction>, t: Transaction, accountId: Id, monthEnd: DateTime, currentOrPast: bool)
    ensures SumContributions(init + [t], accountId, monthEnd, currentOrPast)
            == SumContributions(init, accountId, monthEnd, currentOrPast)
               + (if t.accountId == accountId then Contribution(t, monthEnd, currentOrPast) else 0)
  {
    assert (init + [t])[..|init|] == init;
  }

  /** January 2025: the effectived rows up to its end add 200 to the account. */
  lemma PastMonthMovements(r1: Transaction, r2: Transaction, r3: Transaction, r4: Transaction, r5: Transaction)
    requires r1 == ScenarioRow("t1", Income, 1000, 2024, 11, 15, true)
    requires r2 == ScenarioRow("t2", Expense, 300, 2024, 11, 20, true)
    requires r3 == ScenarioRow("t3", Expense, 500, 2025, 0, 10, true)
    requires r4 == ScenarioRow("t4", Expense, 200, 2025, 0, 15, false)
    requires r5 == ScenarioRow("t5", Income, 1000, 2025, 1, 3, false)
    ensures SumContributions([r1, r2, r3, r4, r5], "acc", EndOfMonth(2025, 0), true) == 200
  {
    var me := EndOfMonth(2025, 0);
    assert SumContributions([r1], "acc", me, true) == 1000 by {
      assert Contribution(r1, me, true) == 1000;
      SumContributionsSnoc([], r1, "acc", me, true);
      assert [] + [r1] == [r1];
    }
    assert SumContributions([r1, r2], "acc", me, true) == 700 by {
      assert Contribution(r2, me, true) == -300;
      SumContributionsSnoc([r1], r2, "acc", me, true);
      assert [r1] + [r2] == [r1, r2];
    }
    assert SumContributions([r1, r2, r3], "acc", me, true) == 200 by {
      assert Contribution(r3, me, true) == -500;
      SumContributionsSnoc([r1, r2], r3, "acc", me, true);
      assert [r1, r2] + [r3] == [r1, r2, r3];
    }
    assert SumContributions([r1, r2, r3, r4], "acc", me, true) == 200 by {
      assert Contribution(r4, me, true) == 0;
      SumContributionsSnoc([r1, r2, r3], r4, "acc", me, true);
      assert [r1, r2, r3] + [r4] == [r1, r2, r3, r4];
    }
    assert Contribution(r5, me, true) == 0;
    SumContributionsSnoc([r1, r2, r3, r4], r5, "acc", me, true);
    assert [r1, r2, r3, r4] + [r5] == [r1, r2, r3, r4, r5];
  }

  /** January 2025, a past month: only effectived rows up to 31 January count. */
  lemma PastMonthScenario()
    ensures GetTotalAmount(ScenarioLedger([
              ScenarioRow("t1", Income, 1000, 2024, 11, 15, true),
              ScenarioRow("t2", Expense, 300, 2024, 11, 20, true),
              ScenarioRow("t3", Expense, 500, 2025, 0, 10, true),
              ScenarioRow("t4", Expense, 200, 2025, 0, 15, false),
              ScenarioRow("t5", Income, 1000, 2025, 1, 3, false)]), "u", "2025-01", ScenarioNow)
            == Success(TotalAmount(BalanceUntilEndOfMonth, 12700))
  {
    var r1 := ScenarioRow("t1", Income, 1000, 2024, 11, 15, true);
    var r2 := ScenarioRow("t2", Expense, 300, 2024, 11, 20, true);
    var r3 := ScenarioRow("t3", Expense, 500, 2025, 0, 10, true);
    var r4 := ScenarioRow("t4", Expense, 200, 2025, 0, 15, false);
    var r5 := ScenarioRow("t5", Income, 1000, 2025, 1, 3, false);
    PastMonthMovements(r1, r2, r3, r4, r5);
    assert FormatMonth(2025, 0) == "2025-01";
    ScenarioTotal([r1, r2, r3, r4, r5], 2025, 0, "2025-01");
  }

  /** February 2025, first four rows: the effectived ones add 800 to the account. */
  lemma CurrentMonthCountedRows(r1: Transaction, r2: Transaction, r3: Transaction, r4: Transaction)
    requires r1 == ScenarioRow("t1", Income, 500, 2025, 0, 20, true)
    requires r2 == ScenarioRow("t2", Expense, 300, 2025, 0, 25, false)
    requires r3 == ScenarioRow("t3", Expense, 700, 2025, 1, 3, true)
    requires r4 == ScenarioRow("t4", Income, 1000, 2025, 1, 6, true)
    ensures SumContributions([r1, r2, r3, r4], "acc", EndOfMonth(2025, 1), true) == 800
  {
    var me := EndOfMonth(2025, 1);
    assert SumContributions([r1], "acc", me, true) == 500 by {
      assert Contribution(r1, me, true) == 500;
      SumContributionsSnoc([], r1, "acc", me, true);
      assert [] + [r1] == [r1];
    }
    assert SumContributions([r1, r2], "acc", me, true) == 500 by {
      assert Contribution(r2, me, true) == 0;
      SumContributionsSnoc([r1], r2, "acc", me, true);
      assert [r1] + [r2] == [r1, r2];
    }
    assert SumContributions([r1, r2, r3], "acc", me, true) == -200 by {
      assert Contribution(r3, me, true) == -700;
      SumContributionsSnoc([r1, r2], r3, "acc", me, true);
      assert [r1, r2] + [r3] == [r1, r2, r3];
    }
    assert Contribution(r4, me, true) == 1000;
    SumContributionsSnoc([r1, r2, r3], r4, "acc", me, true);
    assert [r1, r2, r3] + [r4] == [r1, r2, r3, r4];
  }

  /** February 2025: the effectived rows up to its end add 800 to the account. */
  lemma CurrentMonthMovements(r1: Transaction, r2: Transaction, r3: Transaction, r4: Transaction, r5: Transaction, r6: Transaction, r7: Transaction)
    requires r1 == ScenarioRow("t1", Income, 500, 2025, 0, 20, true)
    requires r2 == ScenarioRow("t2", Expense, 300, 2025, 0, 25, false)
    requires r3 == ScenarioRow("t3", Expense, 700, 2025, 1, 3, true)
    requires r4 == ScenarioRow("t4", Income, 1000, 2025, 1, 6, true)
    requires r5 == ScenarioRow("t5", Expense, 400, 2025, 1, 15, false)
    requires r6 == ScenarioRow("t6", Expense, 500, 2025, 2, 5, false)
    requires r7 == ScenarioRow("t7", Income, 600, 2025, 2, 10, false)
    ensures SumContributions([r1, r2, r3, r4, r5, r6, r7], "acc", EndOfMonth(2025, 1), true) == 800
  {
    var me := EndOfMonth(2025, 1);
    CurrentMonthCountedRows(r1, r2, r3, r4);
    assert SumContributions([r1, r2, r3, r4, r5], "acc", me, true) == 800 by {
      assert Contribution(r5, me, true) == 0;
      SumContributionsSnoc([r1, r2, r3, r4], r5, "acc", me, true);
      assert [r1, r2, r3, r4] + [r5] == [r1, r2, r3, r4, r5];
    }
    assert SumContributions([r1, r2, r3, r4, r5, r6], "acc", me, true) == 800 by {
      assert Contribution(r6, me, true) == 0;
      SumContributionsSnoc([r1, r2, r3, r4, r5], r6, "acc", me, true);
      assert [r1, r2, r3, r4, r5] + [r6] == [r1, r2, r3, r4, r5, r6];
    }
    assert Contribution(r7, me, true) == 0;
    SumContributionsSnoc([r1, r2, r3, r4, r5, r6], r7, "acc", me, true);
    assert [r1, r2, r3, r4, r5, r6] + [r7] == [r1, r2, r3, r4, r5, r6, r7];
  }

  /** February 2025, the current month: effectived rows up to 28 February count. */
  lemma CurrentMonthScenario()
    ensures GetTotalAmount(ScenarioLedger([
              ScenarioRow("t1", Income, 500, 2025, 0, 20, true),
              ScenarioRow("t2", Expense, 300, 2025, 0, 25, false),
              ScenarioRow("t3", Expense, 700, 2025, 1, 3, true),
              ScenarioRow("t4", Income, 1000, 2025, 1, 6, true),
              ScenarioRow("t5", Expense, 400, 2025, 1, 15, false),
              ScenarioRow("t6", Expense, 500, 2025, 2, 5, false),
              ScenarioRow("t7", Income, 600, 2025, 2, 10, false)]), "u", "2025-02", ScenarioNow)
            == Success(TotalAmount(CurrentBalanceInAccounts, 13300))
  {
    var r1 := ScenarioRow("t1", Income, 500, 2025, 0, 20, true);
    var r2 := ScenarioRow("t2", Expense, 300, 2025, 0, 25, false);
    var r3 := ScenarioRow("t3", Expense, 700, 2025, 1, 3, true);
    var r4 := ScenarioRow("t4", Income, 1000, 2025, 1, 6, true);
    var r5 := ScenarioRow("t5", Expense, 400, 2025, 1, 15, false);
    var r6 := ScenarioRow("t6", Expense, 500, 2025, 2, 5, false);
    var r7 := ScenarioRow("t7", Income, 600, 2025, 2, 10, false);
    CurrentMonthMovements(r1, r2, r3, r4, r5, r6, r7);
    assert FormatMonth(2025, 1) == "2025-02";
    ScenarioTotal([r1, r2, r3, r4, r5, r6, r7], 2025, 1, "2025-02");
  }

  /** March 2025: every row up to its end adds up to 1400 for the account. */
  lemma FutureMonthMovements(r1: Transaction, r2: Transaction, r3: Transaction, r4: Transaction, r5: Transaction, r6: Transaction)
    requires r1 == ScenarioRow("t1", Income, 1000, 2025, 0, 20, true)
    requires r2 == ScenarioRow("t2", Expense, 200, 2025, 0, 25, false)
    requires r3 == ScenarioRow("t3", Expense, 800, 2025, 1, 6, true)
    requires r4 == ScenarioRow("t4", Income, 300, 2025, 1, 15, false)
    requires r5 == ScenarioRow("t5", Income, 1500, 2025, 2, 10, false)
    requires r6 == ScenarioRow("t6", Expense, 400, 2025, 2, 25, false)
    ensures SumContributions([r1, r2, r3, r4, r5, r6], "acc", EndOfMonth(2025, 2), false) == 1400
  {
    var me := EndOfMonth(2025, 2);
    assert SumContributions([r1], "acc", me, false) == 1000 by {
      assert Contribution(r1, me, false) == 1000;
      SumContributionsSnoc([], r1, "acc", me, false);
      assert [] + [r1] == [r1];
    }
    assert SumContributions([r1, r2], "acc", me, false) == 800 by {
      assert Contribution(r2, me, false) == -200;
      SumContributionsSnoc([r1], r2, "acc", me, false);
      assert [r1] + [r2] == [r1, r2];
    }
    assert SumContributions([r1, r2, r3], "acc", me, false) == 0 by {
      assert Contribution(r3, me, false) == -800;
      SumContributionsSnoc([r1, r2], r3, "acc", me, false);
      assert [r1, r2] + [r3] == [r1, r2, r3];
    }
    assert SumContributions([r1, r2, r3, r4], "acc", me, false) == 300 by {
      assert Contribution(r4, me, false) == 300;
      SumContributionsSnoc([r1, r2, r3], r4, "acc", me, false);
      assert [r1, r2, r3] + [r4] == [r1, r2, r3, r4];
    }
    assert SumContributions([r1, r2, r3, r4, r5], "acc", me, false) == 1800 by {
      assert Contribution(r5, me, false) == 1500;
      SumContributionsSnoc([r1, r2, r3, r4], r5, "acc", me, false);
      assert [r1, r2, r3, r4] + [r5] == [r1, r2, r3, r4, r5];
    }
    assert Contribution(r6, me, false) == -400;
    SumContributionsSnoc([r1, r2, r3, r4, r5], r6, "acc", me, false);
    assert [r1, r2, r3, r4, r5] + [r6] == [r1, r2, r3, r4, r5, r6];
  }

  /** March 2025, a future month: every row up to 31 March counts, effectived or not. */
  lemma FutureMonthScenario()
    ensures GetTotalAmount(ScenarioLedger([
              ScenarioRow("t1", Income, 1000, 2025, 0, 20, true),
              ScenarioRow("t2", Expense, 200, 2025, 0, 25, false),
              ScenarioRow("t3", Expense, 800, 2025, 1, 6, true),
              ScenarioRow("t4", Income, 300, 2025, 1, 15, false),
              ScenarioRow("t5", Income, 1500, 2025, 2, 10, false),
              ScenarioRow("t6", Expense, 400, 2025, 2, 25, false)]), "u", "2025-03", ScenarioNow)
            == Success(TotalAmount(ProjectedBalance, 13900))
  {
    var r1 := ScenarioRow("t1", Income, 1000, 2025, 0, 20, true);
    var r2 := ScenarioRow("t2", Expense, 200, 2025, 0, 25, false);
    var r3 := ScenarioRow("t3", Expense, 800, 2025, 1, 6, true);
    var r4 := ScenarioRow("t4", Income, 300, 2025, 1, 15, false);
    var r5 := ScenarioRow("t5", Income, 1500, 2025, 2, 10, false);
    var r6 := ScenarioRow("t6", Expense, 400, 2025, 2, 25, false);
    FutureMonthMovements(r1, r2, r3, r4, r5, r6);
    assert FormatMonth(2025, 2) == "2025-03";
    ScenarioTotal([r1, r2, r3, r4, r5, r6], 2025, 2, "2025-03");
  }

  /** The scenario ledger's total is its one account's initial balance plus its movements. */
  lemma ScenarioAccountTotal(txs: seq<Transaction>, monthEnd: DateTime, currentOrPast: bool)
    ensures TotalOfAccounts(ScenarioLedger(txs).accounts, "u", txs, monthEnd, currentOrPast)
            == 12500 + SumContributions(txs, "acc", monthEnd, currentOrPast)
  {
    assert ScenarioLedger(txs).accounts[..0] == [];
  }

  /**
   * December 2024 queried on 9 February 2025, with one expense of 500 still
   * pending on 20 December: the handler as written answers a projection of
   * 12000, counting the pending expense; the corrected handler answers the
   * balance until the end of the month, 12500.
   */
  lemma PastDecemberReply()
    ensures var s := ScenarioLedger([ScenarioRow("t1", Expense, 500, 2024, 11, 20, false)]);
            && GetTotalAmountAsWritten(s, "u", "2024-12", ScenarioNow) == Success(TotalAmount(ProjectedBalance, 12000))
            && GetTotalAmount(s, "u", "2024-12", ScenarioNow) == Success(TotalAmount(BalanceUntilEndOfMonth, 12500))
  {
    var r := ScenarioRow("t1", Expense, 500, 2024, 11, 20, false);
    var me := EndOfMonth(2024, 11);
    ParseFormat(2024, 11);
    assert FormatMonth(2024, 11) == "2024-12";
    assert [] + [r] == [r];
    assert Contribution(r, me, false) == -500;
    SumContributionsSnoc([], r, "acc", me, false);
    ScenarioAccountTotal([r], me, false);
    assert Contribution(r, me, true) == 0;
    SumContributionsSnoc([], r, "acc", me, true);
    ScenarioAccountTotal([r], me, true);
  }
}
