/**
 * The rows of the ledger's tables: accounts, transactions, categories and
 * credit cards, with the fields the handlers read or write. Amounts are
 * integer cents.
 */
module Entities {
  import opened Common
  import opened Calendar

  /** The transaction `type` column. */
  datatype TxKind = Income | Expense | TransferIn | TransferOut | Credit

  /** The account `type` column. */
  datatype AccountKind = Bank | Wallet

  /** The category `type` column. */
  datatype CategoryKind = CatExpense | CatIncome | CatTransferIn | CatTransferOut

  datatype Account = Account(
    id: Id,
    userId: Id,
    name: string,
    kind: AccountKind,
    initialBalance: int)

  datatype Transaction = Transaction(
    id: Id,
    userId: Id,
    accountId: Id,
    targetAccountId: Option<Id>,
    creditCardId: Option<Id>,
    categoryId: Option<int>,
    title: Option<string>,
    description: Option<string>,
    observations: Option<string>,
    amount: int,
    kind: TxKind,
    dueDate: DateTime,
    invoiceDate: Option<DateTime>,
    effectiveDate: Option<DateTime>,
    effectived: bool,
    isFixed: bool,
    installments: Option<int>,
    transferId: Option<Id>)

  /** A category; `userId == None` marks a global (default) category. */
  datatype Category = Category(
    id: int,
    userId: Option<Id>,
    name: string,
    kind: CategoryKind)

  datatype CreditCard = CreditCard(
    id: Id,
    userId: Id,
    accountId: Id,
    name: string,
    closingDay: int,
    dueDay: int,
    limit: int,
    currentLimit: int)

  /** The sum of the amounts of a list of transactions (`reduce((s, t) => s + t.amount, 0)`). */
  function SumAmounts(s: seq<Transaction>): int {
    if s == [] then 0 else SumAmounts(s[..|s| - 1]) + s[|s| - 1].amount
  }

  lemma {:induction false} SumAmountsAppend(a: seq<Transaction>, b: seq<Transaction>)
    ensures SumAmounts(a + b) == SumAmounts(a) + SumAmounts(b)
    decreases |b|
  {
    if b == [] {
      assert a + b == a;
    } else {
      assert (a + b)[..|a + b| - 1] == a + b[..|b| - 1];
      SumAmountsAppend(a, b[..|b| - 1]);
    }
  }

  lemma {:induction false} SumAmountsRemoveAt(b: seq<Transaction>, k: int)
    requires 0 <= k < |b|
    ensures SumAmounts(b) == SumAmounts(b[..k] + b[k + 1..]) + b[k].amount
    decreases |b|
  {
    var init := b[..|b| - 1];
    if k == |b| - 1 {
      assert b[..k] + b[k + 1..] == init;
    } else {
      var rest := b[..k] + b[k + 1..];
      SumAmountsRemoveAt(init, k);
      assert rest[..|rest| - 1] == init[..k] + init[k + 1..];
      assert rest[|rest| - 1] == b[|b| - 1];
    }
  }

  /** Taking out the element at `k` takes exactly one copy of it out of the multiset. */
  lemma MultisetRemoveAt(b: seq<Transaction>, k: int)
    requires 0 <= k < |b|
    ensures multiset(b[..k] + b[k + 1..]) == multiset(b) - multiset{b[k]}
  {
    assert b == b[..k] + [b[k]] + b[k + 1..];
    assert multiset(b) == multiset(b[..k]) + multiset{b[k]} + multiset(b[k + 1..]);
  }

  /** Reordering a list of transactions does not change the sum of its amounts. */
  lemma {:induction false} SumAmountsPermutation(a: seq<Transaction>, b: seq<Transaction>)
    requires multiset(a) == multiset(b)
    ensures SumAmounts(a) == SumAmounts(b)
    decreases |a|
  {
    if a == [] {
      assert b == [] by { assert |multiset(b)| == 0; }
    } else {
      var x := a[|a| - 1];
      var init := a[..|a| - 1];
      assert a == init + [x];
      assert multiset(init) == multiset(a) - multiset{x};
      assert x in b by { assert x in multiset(b); }
      var k :| 0 <= k < |b| && b[k] == x;
      MultisetRemoveAt(b, k);
      SumAmountsPermutation(init, b[..k] + b[k + 1..]);
      SumAmountsRemoveAt(b, k);
    }
  }
}
