# Dinheirinho ledger core in Dafny

A verified model of the request handlers at the core of the
`web-service-dinheirinho` personal-finance backend. The backend keeps users,
bank and wallet accounts, income and expense transactions, transfers, credit
cards with monthly invoices, and categories. It answers month-based queries
over them: the total balance of the accounts, the income/expense summary of a
month, the transactions of a month, and a card's invoice.

The database is replaced by one in-memory `Store.Ledger` object. Its fields
are the set of registered user ids and one sequence of rows per table
(accounts, transactions, categories, cards), in insertion order.

Each handler has its own module:

- A pure specification function computes the status code and the new table,
  or the `Reply` of a query.
- A handler that writes is a `method` on the ledger. The method is proved
  equal to its specification function and proved to keep the ledger's
  invariant `Valid()`: unique ids in every table, and no user owning two
  categories with one name and type.
- The properties of the specification functions are lemmas, and so are the
  scenarios of the repository's end-to-end tests.

The supporting modules:

- **Dates.** `Calendar` models JavaScript's local `Date`: year, zero-based
  month, day and millisecond of the day. It includes `new Date(y, m, d)`
  with overflow of months and days, the first and last instants of a month,
  and the millisecond before an instant.
- **Month query.** `MonthQuery` models the `^\d{4}-(0[1-9]|1[0-2])$` check
  and the split of a "YYYY-MM" query into a year and a zero-based month. It
  proves the round trip in both directions.
- **Amounts.** Amounts are integer cents, as the `int()` checks of the
  request schemas require.

## Model

| member | source | states |
|---|---|---|
| Calendar.MakeDate | src/http/controllers/transactions/create-credit-expense.ts:27-39 | `new Date(y, m, d)` is always a valid date at midnight. A year from 0 to 99 stands for 1900 to 1999, and the month `m` counts on from January of that year. When the month has the day, the result is that year, month and day. A day up to 28 past the month's end is that many days into the next month, so day 30 of February 2025 is 2 March. A day from -27 to 0 counts back into the previous month's last days. |
| Calendar.TwoDigitYears | src/http/controllers/transactions/create-credit-expense.ts:27-39 | Year 24 becomes 1924, month 12 of year 99 becomes January 2000, and year 100 is kept. |
| Calendar.NormaliseDay | src/http/controllers/credit-card/pay-credit-invoice.ts:47-51 | The result is valid and keeps an in-range day as it is. A day past the month's end moves forward and a day below 1 moves back. A day up to 28 past the end is exactly that many days into the next month. A day from -27 to 0 is exactly that far back from the end of the previous month. |
| Calendar.ConstructorYear | src/http/controllers/transactions/create-credit-expense.ts:27-39 | The year `new Date` uses is the given year or that year plus 1900, and never a year from 0 to 99. |
| Calendar.DaysInMonth | src/http/controllers/credit-card/pay-credit-invoice.ts:47-51 | A month has 28 to 31 days, and 28 exactly for February of a common year, as JavaScript's calendar counts them. |
| Calendar.PrevInstant | src/http/controllers/transactions/fetch-transaction.ts:65 | The instant a millisecond earlier is valid and strictly before the original. At an instant whose millisecond within the second is 0, such as a month's start, this is what `setMilliseconds(-1)` gives. |
| Calendar.StartOfMonth | src/http/controllers/transactions/get-transactions-month-balance.ts:47-49 | `startOfMonth` is a valid instant of the given month, and no valid instant of that month comes before it. |
| Calendar.EndOfMonth | src/http/controllers/transactions/get-transactions-month-balance.ts:50 | `endOfMonth` is a valid instant of the given month, and no valid instant of that month comes after it. |
| Calendar.WithinMonthBounds | src/http/controllers/transactions/get-transactions-month-balance.ts:47-50 | A valid instant lies between a month's first and last instants exactly when it is in that year and month. |
| Calendar.PrevInstantIsImmediate | src/http/controllers/transactions/fetch-transaction.ts:63-65 | No valid instant lies strictly between an instant and the one a millisecond before it. |
| MonthQuery.ParseMonth | src/http/controllers/credit-card/pay-credit-invoice.ts:35-36 | A month string parses exactly when it matches the `YYYY-MM` pattern. The month then lies in 0..11. |
| MonthQuery.ParseFormat | src/http/controllers/transactions/fetch-transaction.ts:9-13 | Every year 0..9999 and month, once formatted, parses back to the same pair. |
| MonthQuery.FormatParse | src/http/controllers/transactions/fetch-transaction.ts:9-13 | Every string that parses is the formatting of the pair it parses to. |
| Entities.SumAmountsAppend | src/http/controllers/credit-card/pay-credit-invoice.ts:68 | The amount sum of a concatenation is the sum of the two sums. |
| Entities.SumAmountsPermutation | src/http/controllers/credit-card/fetch-credit-expenses.ts:85-93 | Reordering transactions, as `orderBy` does, keeps the sum of their amounts. |
| Store.FindAccount | src/http/controllers/transactions/create-transaction.ts:50-54 | `findUnique` by id: an account is found only with that id, and none exactly when no account has it. |
| Store.FindOwnedCard | src/http/controllers/credit-card/pay-credit-invoice.ts:38-41 | A card is found only if both its id and its owner match, and none is found exactly when no row matches. |
| Store.FindFirst | src/http/controllers/credit-card/pay-credit-invoice.ts:38-41 | The index found is the first whose element matches. None is found exactly when no element matches. |
| Store.FindOwnedCardAfterUpdate | src/http/controllers/credit-card/pay-credit-invoice.ts:38-82 | Updating the found card in place, keeping its id and owner, leaves it the card found for the caller. |
| Store.Ledger.constructor | prisma/seed.ts:5-26 | A fresh store holds the registered users and the given global categories, such as the seeded ones, and no other rows. It is valid. |
| CreateCreditExpense.GetDueDateInvoice | src/http/controllers/transactions/create-credit-expense.ts:19-42 | The invoice date is valid at midnight. It is billed in the purchase month, or in the next one when the purchase day is after the closing day. For a due day up to 31 that month has, the date is that day of that month. For a due day the month lacks, it is the overflow into the month after, such as 2 March for day 30 of February 2025. For a due day of at most 28, the day is the due day. A purchase year from 0 to 99 is read as 1900 to 1999, as `new Date` reads it. |
| CreateCreditExpense.InvoiceMonth | src/http/controllers/transactions/create-credit-expense.ts:27-39 | The invoice month is a valid month, equal to the purchase month or one after it, according to whether the purchase day is after the closing day. |
| CreateCreditExpense.AfterClosingDay | src/http/controllers/transactions/create-credit-expense.ts:26-33 | A purchase after the closing day is billed on the due day of the next calendar month. |
| CreateCreditExpense.OnOrBeforeClosingDay | src/http/controllers/transactions/create-credit-expense.ts:35-41 | A purchase on or before the closing day is billed on the due day of its own month. |
| CreateCreditExpense.DecemberRollsIntoJanuary | src/http/controllers/transactions/create-credit-expense.ts:27-31 | A December purchase after the closing day is billed in January of the next year. |
| CreateCreditExpense.InvoiceMonthIsPurchaseMonthOrNext | src/http/controllers/transactions/create-credit-expense.ts:19-42 | When the due day fits, the invoice is on that day of the purchase month or of the month after it. |
| CreateCreditExpense.TimeOfDayIsIgnored | src/http/controllers/transactions/create-credit-expense.ts:24 | Only the purchase's date matters, not its time of day. |
| CreateCreditExpense.DueDateInvoiceExamples | src/http/controllers/transactions/get-due-date-invoice.spec.ts:5-39 | The unit-test cases hold. A due day of 30 in February runs over into 2 March. |
| CreateCreditExpense.CreditRow | src/http/controllers/transactions/create-credit-expense.ts:87-100 | The stored row carries the caller, the card's account and id, the amount, due date, invoice date, category, description and observations. It is unpaid, not fixed, and has no installments. |
| CreateCreditExpense.Charge | src/http/controllers/transactions/create-credit-expense.ts:75-102 | Answers 409 exactly when the caller owns no such card, leaving the table unchanged. Otherwise answers 201 and appends exactly `CreditRow`. The request's `isFixed` and `installments` are not stored, and the card is not touched. |
| CreateCreditExpense.CreateCreditExpense | src/http/controllers/transactions/create-credit-expense.ts:75-102 | The method leaves the status and table of `Charge`, changes no other table, and keeps the store valid. |
| CreateCreditExpense.ChargeAndBill | src/http/controllers/transactions/create-credit-expense.ts:19-102 | Corrected purchase. Answers 409 exactly when the caller owns no such card, changing nothing. Otherwise the row is billed on the client's invoice date or else on `GetDueDateInvoice`, and keeps `isFixed` and `installments`. The card's available limit drops by the amount. Nothing else changes. |
| CreateCreditExpense.PaymentTestAsWritten | src/http/controllers/credit-card/pay-credit-invoice.spec.ts:39-104 | Through the handler as written, the test's two purchases leave the limit at 20000, not the 16000 the test expects. Paying "2025-02" then answers 409 and changes nothing, where the test expects 201. |
| CreateCreditExpense.FirstPurchaseBilled | src/http/controllers/credit-card/pay-credit-invoice.spec.ts:52-66 | Corrected: the 20 January purchase, after the closing day 5, is billed on 15 February, and the limit drops to 18000. |
| CreateCreditExpense.SecondPurchaseBilled | src/http/controllers/credit-card/pay-credit-invoice.spec.ts:69-82 | Corrected: the fixed 4 February purchase, on or before the closing day, is also billed on 15 February, and the limit drops to 16000. |
| CreateCreditExpense.PaymentTestCorrected | src/http/controllers/credit-card/pay-credit-invoice.spec.ts:39-126 | With corrected purchases the test's whole sequence holds: both purchases answer 201 and leave 16000. The payment answers 201 and raises the limit to 18000, and both charges are effectived. |
| GetTotalAmount.DefineTotalAmountAccountsType | src/http/controllers/accounts/get-total-amount.ts:30-41 | The handler's label compares only the zero-based month of the month end and of now. Equal gives the current-balance label, smaller the until-end-of-month label, larger the projected label. |
| GetTotalAmount.YearIsIgnored | src/http/controllers/accounts/get-total-amount.ts:33-71 | As written, neither the label nor the effectived filter depends on the years. |
| GetTotalAmount.IsCurrentOrPastMonth | src/http/controllers/accounts/get-total-amount.ts:70-71 | The handler's effectived filter is on exactly when its label is not the projected one. |
| GetTotalAmount.LabelByMonth | src/http/controllers/accounts/get-total-amount.ts:30-41 | Corrected label, by calendar month with the year included: past, current or future month. |
| GetTotalAmount.IsCurrentOrPastByMonth | src/http/controllers/accounts/get-total-amount.ts:70-71 | The corrected filter is on exactly for the non-projected corrected labels. |
| GetTotalAmount.CorrectedAgreesWithinAYear | src/http/controllers/accounts/get-total-amount.ts:30-71 | When the queried month and now share a year, the corrected label and filter equal the handler's. |
| GetTotalAmount.PastDecemberLabelledProjected | src/http/controllers/accounts/get-total-amount.ts:33-71 | December 2024 queried in February 2025: the handler labels it projected with the filter off. The corrected version labels it past with the filter on. |
| GetTotalAmount.PastDecemberReply | src/http/controllers/accounts/get-total-amount.ts:30-112 | Worked example with a pending expense of 500 in December 2024, queried on 9 February 2025. As written, the reply is the projected label and 12000, counting the pending expense. Corrected, it is the until-end-of-month label and 12500. |
| GetTotalAmount.Qualifying | src/http/controllers/accounts/get-total-amount.ts:80-96 | A transaction is counted for an account exactly when it is joined to the account, due by the month end, and effectived whenever the filter is on. |
| GetTotalAmount.AccountsOf | src/http/controllers/accounts/get-total-amount.ts:97 | Holds exactly the user's accounts. |
| GetTotalAmount.SumOfKindSnoc | src/http/controllers/accounts/get-total-amount.ts:80-92 | Appending a transaction adds its amount to the sum of its own type only. |
| GetTotalAmount.SumContributions | src/http/controllers/accounts/get-total-amount.ts:79-93 | `COALESCE(..., 0)`: an account that no transaction refers to aggregates to 0. |
| GetTotalAmount.Contribution | src/http/controllers/accounts/get-total-amount.ts:80-92 | A counted INCOME adds its amount and a counted EXPENSE subtracts it. A transfer or card charge adds nothing. So does a row due after the month's end, and, with the filter on, a row not yet effectived. |
| GetTotalAmount.AccountBalance | src/http/controllers/accounts/get-total-amount.ts:78-93 | An account without transactions shows its initial balance. |
| GetTotalAmount.BalanceIsIncomeMinusExpense | src/http/controllers/accounts/get-total-amount.ts:78-93 | The `CASE` aggregation equals the initial balance, plus the counted incomes, minus the counted expenses. |
| GetTotalAmount.TotalOfAccounts | src/http/controllers/accounts/get-total-amount.ts:101-104 | The `reduce` starts from 0: a user without accounts totals 0. |
| GetTotalAmount.TotalOfAccountsIsReference | src/http/controllers/accounts/get-total-amount.ts:94-104 | The `reduce` over the joined rows equals the sum of the reference balances of exactly the user's accounts. |
| GetTotalAmount.GetTotalAmount | src/http/controllers/accounts/get-total-amount.ts:56-112 | Answers 400 for a malformed month and 409 for an unknown user. Otherwise answers the corrected label and the reference total at the end of the queried month, with the effectived filter on for current and past months. |
| GetTotalAmount.GetTotalAmountAsWritten | src/http/controllers/accounts/get-total-amount.ts:56-112 | The reply as written. Answers 400 for a malformed month and 409 for an unknown user. Otherwise the label is `DefineTotalAmountAccountsType`, and the total is the reference total with the filter on exactly when the month index is at most now's. |
| GetTotalAmount.AsWrittenAgreesWithinAYear | src/http/controllers/accounts/get-total-amount.ts:30-71 | When the queried year is now's year, the reply as written equals the corrected reply. |
| GetTotalAmount.NeutralTransactionsLeaveInitialBalance | src/http/controllers/accounts/get-total-amount.ts:80-91 | Transfers, credit charges and transactions due after the month end leave an account at its initial balance. |
| GetTotalAmount.ProjectionIgnoresEffectived | src/http/controllers/accounts/get-total-amount.ts:84-89 | With the filter off, the effectived flags do not change a balance. |
| GetTotalAmount.SumContributionsSnoc | src/http/controllers/accounts/get-total-amount.ts:79-93 | One more row adds its `CASE` term to the account's aggregate. |
| GetTotalAmount.ScenarioTotal | src/http/controllers/accounts/get-total-amount.ts:94-104 | For a user with one account, the total is that account's balance. |
| GetTotalAmount.PastMonthScenario | src/http/controllers/accounts/get-total-amount.spec.ts:45-122 | January queried on 9 February 2025 gives 12700 with the until-end-of-month label. |
| GetTotalAmount.CurrentMonthScenario | src/http/controllers/accounts/get-total-amount.spec.ts:124-223 | February gives 13300 with the current-balance label. |
| GetTotalAmount.FutureMonthScenario | src/http/controllers/accounts/get-total-amount.spec.ts:225-308 | March gives 13900 with the projected label. |
| PayCreditInvoice.InvoiceDate | src/http/controllers/credit-card/pay-credit-invoice.ts:47-51 | The invoice date is valid at midnight. When the month has the due day, it is exactly that day of the queried month. For a due day up to 31 that the month lacks, it is the overflow into the next month. A query year from 0 to 99 names 1900 to 1999, as `new Date` reads it. |
| PayCreditInvoice.PendingCharges | src/http/controllers/credit-card/pay-credit-invoice.ts:53-60 | Holds exactly the charges of the card on that invoice date that are both unpaid and not fixed. It is empty exactly when there is none. |
| PayCreditInvoice.OnInvoice | src/http/controllers/credit-card/pay-credit-invoice.ts:71-75 | A row on the invoice is a card charge with an invoice date, and it is on no other card's invoice and no other date's. |
| PayCreditInvoice.IsPending | src/http/controllers/credit-card/pay-credit-invoice.ts:53-60 | Every pending charge is one the `updateMany` settles. An effectived or fixed charge is never pending. |
| PayCreditInvoice.Settle | src/http/controllers/credit-card/pay-credit-invoice.ts:71-77 | A row ends effectived exactly when it was already, or is on the invoice. Nothing else about it changes, it stays on or off the invoice, and it is no longer pending. |
| PayCreditInvoice.SettleInvoice | src/http/controllers/credit-card/pay-credit-invoice.ts:71-77 | Every row is kept in place. The rows on the card's invoice are marked effectived. |
| PayCreditInvoice.PayInvoice | src/http/controllers/credit-card/pay-credit-invoice.ts:35-84 | Answers 400 exactly for a malformed month and 404 exactly when the caller owns no such card. Otherwise answers 409 or 201, and every answer other than 201 leaves the store as it was. |
| PayCreditInvoice.EmptyInvoiceConflicts | src/http/controllers/credit-card/pay-credit-invoice.ts:62-66 | With no pending charge the answer is 409 and the store is unchanged. |
| PayCreditInvoice.PaymentEffects | src/http/controllers/credit-card/pay-credit-invoice.ts:68-82 | After a payment, the limit has grown by exactly the pending total, and other cards and every other field are unchanged. |
| PayCreditInvoice.CardFoundAfterPayment | src/http/controllers/credit-card/pay-credit-invoice.ts:38-82 | After a payment, the caller's card is found at the same row with the same due day, and the table is the settled one. |
| PayCreditInvoice.NothingPendingAfterSettling | src/http/controllers/credit-card/pay-credit-invoice.ts:53-77 | After settling, no charge of the invoice is pending. |
| PayCreditInvoice.SecondPaymentConflicts | src/http/controllers/credit-card/pay-credit-invoice.ts:53-77 | Paying the same invoice again answers 409 and leaves the limit as it was. |
| PayCreditInvoice.SettledChargesAreEffectived | src/http/controllers/credit-card/pay-credit-invoice.ts:71-77 | Every charge on the invoice is effectived afterwards, fixed ones included. |
| PayCreditInvoice.OtherChargesUntouched | src/http/controllers/credit-card/pay-credit-invoice.ts:71-75 | Charges of other cards or of other invoice dates are unchanged. |
| PayCreditInvoice.PaymentScenario | src/http/controllers/credit-card/pay-credit-invoice.spec.ts:95-126 | Starts from the ledger the test expects before paying: 16000 available, and both charges billed on 15 February. Paying "2025-02" answers 201, raises the limit to 18000 and marks both charges effectived. |
| PayCreditInvoice.PaymentKeepsStoreValid | src/http/controllers/credit-card/pay-credit-invoice.ts:71-82 | A payment keeps transaction ids and card ids unique. |
| PayCreditInvoice.PayCreditInvoice | src/http/controllers/credit-card/pay-credit-invoice.ts:30-84 | The method leaves the status and the store that `PayInvoice` specifies, and it keeps the store valid. |
| FetchCreditExpenses.InvoiceExpenses | src/http/controllers/credit-card/fetch-credit-expenses.ts:76-81 | Holds exactly the caller's transactions on the card with that invoice date. |
| FetchCreditExpenses.InsertByDueDate | src/http/controllers/credit-card/fetch-credit-expenses.ts:85-87 | Inserting into a newest-first list keeps it newest first, and the result is the list plus the new element. |
| FetchCreditExpenses.SortByDueDateDesc | src/http/controllers/credit-card/fetch-credit-expenses.ts:85-87 | The result is newest first and a permutation of the input. |
| FetchCreditExpenses.ShownInstallments | src/http/controllers/credit-card/fetch-credit-expenses.ts:109 | Shows the stored count, or 1 when it is null or 0. |
| FetchCreditExpenses.CategoryName | src/http/controllers/credit-card/fetch-credit-expenses.ts:82-105 | A name is given only when it belongs to a category with the row's category id, and none is given only when no category has that id. |
| FetchCreditExpenses.ExpenseRowOf | src/http/controllers/credit-card/fetch-credit-expenses.ts:102-111 | The charge's id, amount, description, due date, fixed flag and observations are copied. The category is named exactly when the charge's category exists. A missing or zero installment count is shown as 1, and any other count as stored. |
| FetchCreditExpenses.ListedExpenses | src/http/controllers/credit-card/fetch-credit-expenses.ts:76-88 | The listing is the selected charges, newest first. |
| FetchCreditExpenses.ListingKeepsTotals | src/http/controllers/credit-card/fetch-credit-expenses.ts:76-99 | Ordering the charges keeps their count, their sum and both paid flags. |
| FetchCreditExpenses.ExpenseRows | src/http/controllers/credit-card/fetch-credit-expenses.ts:102-111 | One row per listed charge, in the same order. |
| FetchCreditExpenses.IsPaidAsWritten | src/http/controllers/credit-card/fetch-credit-expenses.ts:99 | The handler's flag and the corrected flag both say "paid" only for an invoice with no charges. |
| FetchCreditExpenses.FetchInvoice | src/http/controllers/credit-card/fetch-credit-expenses.ts:53-112 | Answers 400 or 404 as in payment. Otherwise the total is the sum of all selected charges, the due and closing days are the card's, there is one row per charge, and `isPaid` is the corrected flag. |
| FetchCreditExpenses.FetchInvoiceAsWritten | src/http/controllers/credit-card/fetch-credit-expenses.ts:53-112 | The reply as written fails exactly when `FetchInvoice` fails, with the same status. Otherwise it differs from it only in `isPaid`, which is the handler's flag over the selected charges. |
| FetchCreditExpenses.PaidFlagIgnoresOrder | src/http/controllers/credit-card/fetch-credit-expenses.ts:85-99 | Both paid flags are the same for any order of the charges. |
| FetchCreditExpenses.RowsFollowListing | src/http/controllers/credit-card/fetch-credit-expenses.ts:102-111 | Row i is the mapping of the i-th listed charge, and the rows are newest first. |
| FetchCreditExpenses.EmptyInvoice | src/http/controllers/credit-card/fetch-credit-expenses.ts:90-101 | An invoice without charges totals 0, lists nothing, and counts as paid under both flags. |
| FetchCreditExpenses.SettledInvoiceIsPaid | src/http/controllers/credit-card/pay-credit-invoice.ts:71-77 | Once the invoice is settled, every charge of the caller on it is effectived. |
| FetchCreditExpenses.SettledInvoiceNotPaidAsWritten | src/http/controllers/credit-card/fetch-credit-expenses.ts:76-99 | Once a settled invoice holds a charge of the caller, the handler's paid flag is false. |
| FetchCreditExpenses.PaidInvoiceReportedUnpaid | src/http/controllers/credit-card/fetch-credit-expenses.ts:99 | After a payment, the reply as written reports an invoice with a charge unpaid, while the corrected flag is true. |
| FetchCreditExpenses.UnpaidInvoiceReportedPaid | src/http/controllers/credit-card/fetch-credit-expenses.ts:99 | An invoice with at least one charge, all still pending, is reported paid by the reply as written and unpaid by `FetchInvoice`. |
| FetchCreditExpenses.PaidInvoiceIsPaid | src/http/controllers/credit-card/fetch-credit-expenses.ts:61-99 | After a payment, every charge on the invoice is effectived, and the view reports the invoice paid. |
| CreateTransfer.CountRequested | src/http/controllers/transactions/create-transfer.ts:49-55 | Counts the account rows whose id is one of the two requested, never more rows than there are. |
| CreateTransfer.TwoRowsIffTwoDistinctAccounts | src/http/controllers/transactions/create-transfer.ts:49-57 | With unique ids, two rows match exactly when both accounts exist and are different. |
| CreateTransfer.CountBounds | src/http/controllers/transactions/create-transfer.ts:49-55 | The count is the number of distinct requested ids that exist. |
| CreateTransfer.TransferStatus | src/http/controllers/transactions/create-transfer.ts:43-65 | Answers 409 unless the user exists and the two accounts exist and are distinct. Then it answers 400 exactly for a due date after now. |
| CreateTransfer.TransferPair | src/http/controllers/transactions/create-transfer.ts:69-99 | Two rows, OUT first with the given ids. The IN row is the OUT row with the accounts swapped, its own id and type, and the entry description. Both rows are effectived and share the transfer id, user, amount, due date and observations. |
| CreateTransfer.TransferLeavesBalancesUnchanged | src/http/controllers/transactions/create-transfer.ts:69-99 | No account balance in the total-amount view moves because of a transfer pair. |
| CreateTransfer.CreateTransfer | src/http/controllers/transactions/create-transfer.ts:41-101 | The status is `TransferStatus`. On failure nothing changes. On 201 exactly the pair is appended, and the store stays valid. |
| EffectiveTransaction.FindToggleable | src/http/controllers/transactions/effective-transaction.ts:32-38 | Finds only the caller's own INCOME or EXPENSE row with that id. None is found exactly when there is no such row. |
| EffectiveTransaction.Toggle | src/http/controllers/transactions/effective-transaction.ts:44-48 | The flag is negated, the due date is replaced if given and kept otherwise, and no other field changes. |
| EffectiveTransaction.ToggleEffectived | src/http/controllers/transactions/effective-transaction.ts:32-55 | Answers 404 exactly when no row can be toggled, changing nothing. Otherwise answers 204. |
| EffectiveTransaction.ToggleTouchesOneRow | src/http/controllers/transactions/effective-transaction.ts:44-53 | Only the matching row is toggled, and every other row keeps its value. |
| EffectiveTransaction.OnlyOwnIncomesAndExpenses | src/http/controllers/transactions/effective-transaction.ts:32-42 | Other users' rows, transfers and credit charges answer 404. |
| EffectiveTransaction.ToggleTwiceRestores | src/http/controllers/transactions/effective-transaction.ts:46 | Toggling twice without a due date restores the table. |
| EffectiveTransaction.EffectiveTransaction | src/http/controllers/transactions/effective-transaction.ts:26-55 | The method leaves the status and table of `ToggleEffectived`, changes no other table, and keeps the store valid. |
| MonthBalance.InWindowOf | src/http/controllers/transactions/get-transactions-month-balance.ts:62-88 | The window holds exactly the user's transactions due inside it. |
| MonthBalance.ClosedMonth | src/http/controllers/transactions/get-transactions-month-balance.ts:62-68 | The window runs from the month's first instant through its last, both included. |
| MonthBalance.WindowSum | src/http/controllers/transactions/get-transactions-month-balance.ts:62-91 | An aggregate over no matching row is 0, the handler's fallback for a null sum. It is never negative when no amount is. |
| MonthBalance.WindowSumIsSumOfListed | src/http/controllers/transactions/get-transactions-month-balance.ts:62-91 | Each aggregate is the sum of the amounts of that type among the user's transactions in the window. |
| MonthBalance.WindowTotals | src/http/controllers/transactions/get-transactions-month-balance.ts:90-92 | The balance is total income minus total expense. |
| MonthBalance.WindowTotalsSnoc | src/http/controllers/transactions/get-transactions-month-balance.ts:62-91 | One more row adds its amount to its type's total exactly when it is the user's and is due in the window. |
| MonthBalance.GetMonthBalance | src/http/controllers/transactions/get-transactions-month-balance.ts:43-98 | Answers 400 for a malformed month and 404 for an unknown user. Otherwise the totals are the sums of the INCOME and EXPENSE amounts in the closed month, and their difference. |
| MonthBalance.ClosedMonthIsCalendarMonth | src/http/controllers/transactions/get-transactions-month-balance.ts:65-68 | A valid due date is in the window exactly when it is in the queried month. |
| MonthBalance.MonthBoundaries | src/http/controllers/transactions/get-transactions-month-balance.ts:65-68 | The month's first and last instants count. The instant before the month and the first instant after it do not. |
| MonthBalance.FlagAndAccountIgnored | src/http/controllers/transactions/get-transactions-month-balance.ts:62-88 | Neither the effectived flags nor the accounts change the totals. |
| MonthBalance.TransfersAndCreditIgnored | src/http/controllers/transactions/get-transactions-month-balance.ts:69-83 | Adding a transfer or credit row leaves the totals unchanged. |
| MonthBalance.BoundaryScenario | src/http/controllers/transactions/get-transactions-month-balance.spec.ts:61-110 | The test's four rows around February give 500, 300 and 200. |
| FetchTransactions.WindowEnd | src/http/controllers/transactions/fetch-transaction.ts:62-65 | The start of the next month minus one millisecond is the month's last instant. |
| FetchTransactions.HalfOpenMonth | src/http/controllers/transactions/fetch-transaction.ts:62-83 | The window runs from the month's first instant up to, not including, its last millisecond. |
| FetchTransactions.AccountName | src/http/controllers/transactions/fetch-transaction.ts:85-89 | A name is given exactly when the account exists. |
| FetchTransactions.ListRows | src/http/controllers/transactions/fetch-transaction.ts:77-90 | One row per listed transaction, in order, each with its account's name. |
| FetchTransactions.Summary | src/http/controllers/transactions/fetch-transaction.ts:93-123 | The totals are the INCOME and EXPENSE sums of the listed transactions, and the balance is their difference. |
| FetchTransactions.FetchMonth | src/http/controllers/transactions/fetch-transaction.ts:58-132 | Answers 400 for a malformed month and 409 for an unknown user. Otherwise the rows are the user's transactions in the half-open window, in ledger order. The summary sums are those of the listed INCOME and EXPENSE rows, with their difference. |
| FetchTransactions.LastMillisecondExcluded | src/http/controllers/transactions/fetch-transaction.ts:62-83 | A valid due date is listed exactly when it is in the closed month and is not the month's last millisecond. |
| FetchTransactions.ListedAreTheMonths | src/http/controllers/transactions/fetch-transaction.ts:77-90 | The listing holds exactly the user's transactions from the month's start to strictly before its last instant. |
| FetchTransactions.LastMillisecondScenario | src/http/controllers/transactions/fetch-transaction.ts:93-121 | An income at the month's last instant counts in the month balance but not in this summary. |
| CreateCategory.ToUpper | src/http/controllers/categories/create-category.ts:10 | A small letter becomes its capital 32 code points lower. Every other character is kept, and no small letter remains. |
| CreateCategory.ToLower | src/http/controllers/categories/create-category.ts:10 | A capital becomes its small letter, every other character is kept, and no capital remains. |
| CreateCategory.SameLetter | src/http/controllers/categories/create-category.ts:10 | Two characters have the same small form exactly when they have the same capital. |
| CreateCategory.NormalisedForm | src/http/controllers/categories/create-category.ts:9-11 | The transform yields a capital-first, lower-case-rest name. It leaves exactly such names unchanged. |
| CreateCategory.Normalise | src/http/controllers/categories/create-category.ts:9-11 | Keeps the length. The first character is upper-cased and every later one lower-cased. |
| CreateCategory.StoredAs | src/http/controllers/categories/create-category.ts:9-11 | A name in stored form is what every case variant of it is stored as. |
| CreateCategory.NormaliseIdempotent | src/http/controllers/categories/create-category.ts:9-11 | Normalising twice is normalising once. |
| CreateCategory.NormaliseIgnoresCase | src/http/controllers/categories/create-category.ts:9-11 | Two names normalise alike exactly when they differ only in case. |
| CreateCategory.GasolinaExample | src/http/controllers/categories/create-category.spec.ts:23-40 | 'gasolina' is stored as 'Gasolina'. |
| CreateCategory.SapatosExample | src/http/controllers/categories/create-category.spec.ts:47-60 | 'SAPATOS' and 'Sapatos' are both stored as 'Sapatos'. |
| CreateCategory.AccentedExample | src/http/controllers/categories/create-category.ts:9-11 | Accented capitals are lower-cased too. |
| CreateCategory.FindClash | src/http/controllers/categories/create-category.ts:36-42 | Finds only the caller's own category of that stored name and type, and none exactly when there is no such category. |
| CreateCategory.NewCategory | src/http/controllers/categories/create-category.ts:12-54 | Answers 400 for a type other than EXPENSE or INCOME, and 409 exactly when the caller already has that normalised name and type; nothing changes in either case. Otherwise answers 201 and appends one category owned by the caller. |
| CreateCategory.CreationKeepsCategoriesValid | src/http/controllers/categories/create-category.ts:36-52 | Creating keeps category ids unique and never stores a second (owner, name, type). |
| CreateCategory.CaseVariantConflicts | src/http/controllers/categories/create-category.ts:9-48 | After a name is created, any case variant of it with the same type answers 409. |
| CreateCategory.OnlyOwnCategoriesConflict | src/http/controllers/categories/create-category.ts:37-41 | Global categories and other users' categories never cause a conflict. |
| CreateCategory.SapatosScenario | src/http/controllers/categories/create-category.spec.ts:43-68 | 'Sapatos' is created, then 'SAPATOS' answers 409. |
| CreateCategory.CreateCategory | src/http/controllers/categories/create-category.ts:32-54 | The method leaves the status and table of `NewCategory`, changes no other table, and keeps the store valid. |
| FetchCategories.ViewOf | src/http/controllers/categories/fetch-categories.ts:40-46 | A row copies the id, name and type. It is custom exactly when the category has an owner. |
| FetchCategories.VisibleToMembers | src/http/controllers/categories/fetch-categories.ts:48 | The answer holds a row exactly for each global category and each of the caller's own. |
| FetchCategories.VisibleTo | src/http/controllers/categories/fetch-categories.ts:39-48 | Every global category and every category of the caller has its row, and there are no more rows than categories. |
| FetchCategories.CustomMeansOwn | src/http/controllers/categories/fetch-categories.ts:43-48 | A listed row is custom exactly when it comes from one of the caller's own categories. |
| FetchCategories.OthersNeverListed | src/http/controllers/categories/fetch-categories.ts:48 | With unique ids, another user's category never appears. |
| FetchCategories.GlobalsAllListed | src/http/controllers/categories/fetch-categories.ts:48 | With only global categories, all of them are listed. |
| FetchCategories.ListingAfterCreation | src/http/controllers/categories/fetch-categories.ts:48 | A category the caller creates adds one custom row to the caller's list and nothing to other users' lists. |
| FetchCategories.SixteenThenEighteen | src/http/controllers/categories/fetch-categories.spec.ts:18-61 | 16 global categories give 16 rows, and 18 once the caller has created an expense and an income category. |
| FetchCategories.FetchCategories | src/http/controllers/categories/fetch-categories.ts:29-51 | Always answers 200, with exactly the visible categories. |
| CreateTransaction.NewRow | src/http/controllers/transactions/create-transaction.ts:60-71 | The row carries the request's user, account, title, description, type, amount, due date and effective date. It is not effectived and not fixed. |
| CreateTransaction.Record | src/http/controllers/transactions/create-transaction.ts:10-73 | Answers 400 for a type other than EXPENSE or INCOME, and 409 exactly when the user or the account is missing; nothing changes in either case. Otherwise answers 201 and appends the one row. |
| CreateTransaction.AccountOwnershipNotChecked | src/http/controllers/transactions/create-transaction.ts:50-54 | Another user's account is accepted. |
| CreateTransaction.RecordedRowCountsInMonthBalance | src/http/controllers/transactions/create-transaction.ts:60-71 | The new row raises its own type's total by its amount in every window that holds its due date, and leaves the other type's total unchanged. |
| CreateTransaction.CreateTransaction | src/http/controllers/transactions/create-transaction.ts:32-73 | The method leaves the status and table of `Record`, changes no other table, and keeps the store valid. |
| CreateAccount.Open | src/http/controllers/accounts/create-account.ts:29-49 | Answers 409 exactly when the user is missing, changing nothing. Otherwise answers 201 and appends one account with the request's fields. |
| CreateAccount.NewAccountAddsInitialBalance | src/http/controllers/accounts/create-account.ts:41-48 | A new account adds exactly its initial balance to its owner's total, and nothing to other users' totals. |
| CreateAccount.CreateAccount | src/http/controllers/accounts/create-account.ts:29-49 | The method leaves the status and table of `Open`, changes no other table, and keeps the store valid. |
| CreateCreditCard.FindOwnedAccount | src/http/controllers/creditcard/create-credit-card.ts:33-38 | Finds only an account with that id owned by the caller, and none exactly when there is no such account. |
| CreateCreditCard.NewCard | src/http/controllers/creditcard/create-credit-card.ts:49-58 | The card carries the request's fields, is owned by the caller, and starts with its current limit equal to the limit. |
| CreateCreditCard.Issue | src/http/controllers/creditcard/create-credit-card.ts:9-60 | Answers 400 exactly when a day is outside 1..30. It then answers 409 exactly when the caller does not own the account; nothing changes in either case. Otherwise answers 201 and appends the one card. |
| CreateCreditCard.IssuedCardIsOwnersOnly | src/http/controllers/creditcard/create-credit-card.ts:49-58 | The new card is found by its owner, as the invoice handlers look it up, and by no one else. |
| CreateCreditCard.CreateCreditCard | src/http/controllers/creditcard/create-credit-card.ts:30-60 | The method leaves the status and table of `Issue`, changes no other table, and keeps the store valid. |

## Left out

- Protocol layer: Fastify routing, Zod parsing and coercion, JWT checks and response serialisation are not modelled.
  - A request body or query that fails its schema is modelled only where a handler's outcome depends on it: the month pattern, the enum of accepted types, and the card day range. Each gives 400.
  - Serialisation failures of a response are not modelled. One example is a CREDIT row in the transactions listing, whose response schema lacks that type.
- Authentication, sessions and user registration are not modelled. The set of registered user ids is given, and the caller's id is a parameter.
- Time zones are not modelled: every instant is a local calendar date and millisecond.
  - The handlers build a month's start from `YYYY-MM-01T03:00:00.000Z` or `T00:00:00.000Z` before calling date-fns. The model takes the local first and last instants of the parsed month instead.
  - The clock (`new Date()`) is a `now` parameter.
- Generated ids (`randomUUID`, autoincrement) are parameters that must be fresh.
- Atomicity and concurrency: each `$transaction` batch is one sequential method.
- Integer width: the `::integer` cast of the balance query and Postgres' 32-bit `amount` column are not modelled. Amounts are unbounded integers.
- Foreign-key failures (500) are not modelled, such as a transaction on a missing category or a credit expense with an unknown category id.
- Column defaults are not given by the source. The model uses `effectived = false`, `isFixed = false` and no installments on inserts that do not set them, and `currentLimit = limit` for a new card.
- Sort ties: `SortByDueDateDesc` puts charges with equal due dates in an order the database does not promise.
- Case mapping: `toUpperCase`/`toLowerCase` are modelled only for ASCII and Latin-1 letters. Characters whose mapping changes length (such as 'ß') or leaves Latin-1 (such as 'ÿ' and 'µ') are kept as they are.
- PayCreditInvoice.PayInvoice: answers 201 as the handler does, although its response schema declares 204. The card is updated in the row where it was found for the caller; the handler updates it by id, which is the same row under unique ids.
- The effectived flag that the total-amount tests send to `POST /transactions` is not part of that handler's schema. The test scenarios therefore build their ledgers directly.
- PayCreditInvoice.PaymentScenario: starts from the ledger the payment test expects before paying. The test's own purchase requests do not produce that ledger through the handler as written (third row under Findings).
- FetchCreditExpenses.CategoryName: answers no name for a charge without a category, or with an unknown category id. There the handler's `expense.category.name` throws and the request fails with 500, which is not modelled.
- FetchTransactions.FetchMonth: lists the rows in ledger order. The `findMany` has no `orderBy`, so the database promises no order.
- Plain owner-scoped reads (account and card listings, the balance stub) and the test factories are not modelled.

## Findings

| source | as written | input that shows it | evidently intended | confidence | as-written member | corrected member |
|---|---|---|---|---|---|---|
| src/http/controllers/credit-card/fetch-credit-expenses.ts:99 | `isPaid` is true when every listed expense has `effectived === false` | pay an invoice with one charge, then fetch it: every charge is effectived and `isPaid` is false; an unpaid invoice reports `isPaid` true | `isPaid` true when every listed expense is effectived | not executed | FetchCreditExpenses.PaidInvoiceReportedUnpaid | FetchCreditExpenses.PaidInvoiceIsPaid |
| src/http/controllers/accounts/get-total-amount.ts:33-71 | the label and the effectived filter compare `getMonth()` only | query "2024-12" on 9 February 2025: 11 > 1, so the past month is labelled SALDO_PREVISTO and counts pending transactions | compare the calendar month including the year, so a past month is labelled SALDO_ATÉ_O_FIM_DO_MÊS and counts only effectived transactions | not executed | GetTotalAmount.PastDecemberReply | GetTotalAmount.GetTotalAmount |
| src/http/controllers/transactions/create-credit-expense.ts:87-100 | the row stores the client's `invoiceDate` (none in the payment test) and neither `isFixed` nor `installments`, and the card's `currentLimit` is not lowered | the payment test's own requests: after the two purchases the limit is still 20000, and paying "2025-02" finds nothing pending and answers 409 | bill the purchase on `getDueDateInvoice` of its date, keep `isFixed` and `installments`, and lower the limit by the amount | not executed | CreateCreditExpense.PaymentTestAsWritten | CreateCreditExpense.PaymentTestCorrected |
