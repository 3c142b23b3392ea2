# Double-entry bookkeeping core, modelled in Dafny

This project models the bookkeeping engine of a small Flask/SQLAlchemy
accounting application for Japanese sole traders and companies. It covers
the parts that create, change and read the general ledger (仕訳帳).

- **Cash books (出納帳).** A cash-book line is posted into the general ledger.
  The JSON batch endpoint regenerates a line's derived rows (the delete-then-insert
  "derived set"). The single-line form posts one row. There are also the update
  endpoints and delete.
- **Journal vouchers (振替伝票).** A voucher is validated, stored, and mirrored by
  one general-ledger row. Edit overwrites the voucher and its mirror. Delete
  removes the voucher only.
- **Fiscal periods (会計期間).** The create/update form checks, including the
  calendar-year rule for individuals, and close-once.
- **Opening balances (期首残高).** The form is parsed and each item is upserted.
- **The trial balance (試算表).**
  - `account_summary`: opening, period debit and period credit per account item.
  - The closing-balance sign rule and the balance-sheet/profit-and-loss split.
  - The sort orders of the two sides.
  - The balance-sheet stair-step view, tree, reordering and subtotals.
  - The P/L stair-step buckets and the profit waterfall.
  - The P/L tree by small category, its ordering, the middle-category tree and
    the profit cascade.
- **The account ledger (総勘定元帳) page.** The opening balance, one line per
  posting with its running balance, and the monthly totals.

Request forms and JSON bodies are parameters. Flask's `type=int` conversions
become `Option<int>`. JSON values become the `Json` datatype with Python
truthiness. The database is the `Store.Books` class: its tables are `seq`
fields and its ids come from counters. Every handler that writes is a method
whose `modifies` clause names what it writes: the database, or the fiscal
periods for the period handlers. Each such method states the whole new state
of what it writes and that nothing else changes. Report computations are functions, and each loop
of the source is a method proved equal to them. Amounts are integers
(minor units).

Modules (one file each): `Common`, `Text`, `Catalog`, `Ledger`, `Store`,
`CashBooks`, `JournalEntries`, `FiscalPeriods`, `OpeningBalances`,
`TrialBalance`, `SortKeys`, `BalanceSheet`, `BsTree`, `PlStair`, `PlTree`,
`LedgerView`.

Some behaviour follows the code rather than the description of the system:

- The batch endpoint never splits tax: its tax amount is fixed at 0, so the
  tax-split posting rule is modelled but unreachable from the batch.
- Deleting a journal voucher leaves its mirrored ledger row in place.
- The trial balance reads `財産` as `負債`.
- A cash book created from the single-line form gets organisation 1, the column's default, because the handler does not set it.

## Model

| member | source | states |
|---|---|---|
| `Text.StrLessTrichotomy` | blueprints/fiscal_periods.py:109 | Python's string comparison, used for the start-before-end check and for date ranges, is a strict total order. |
| `Text.Prefix` | blueprints/reports.py:1310 | `s[:n]` is the first n characters, or all of s when it is shorter; the ledger's month key is `Prefix(date, 7)`. |
| `Text.StripTrims` | blueprints/cash_books.py:109-118 | `strip()` returns a slice of its input with no white space at either end, and everything it drops before and after that slice is white space. |
| `Text.ParseShowInt` | blueprints/reports.py:156 | `int(str(n)) == n` for every integer. |
| `Text.SpacePaddedDay` | blueprints/cash_books.py:513-519 | `strptime` with `%d` reads a day padded with a space: `2024-01- 5` is 5 January 2024. |
| `Text.ParseFormatDate` | blueprints/cash_books.py:513-519 | Parsing the stored `YYYY-MM-DD` text of a valid date gives the date back. |
| `Common.SumPermutation` | blueprints/reports.py:997-1050 | A total does not depend on the order in which its terms are added. |
| `Catalog.FindItem` | blueprints/cash_books.py:505-507 | An account item lookup by id finds an item with that id exactly when one exists. |
| `Catalog.FindItemByName` | blueprints/cash_books.py:613-616 | The organisation's account item with a given name, found exactly when one exists. |
| `Catalog.FindTaxItem` | blueprints/cash_books.py:645-648 | The organisation's 仮払消費税/仮受消費税 item, found exactly when one exists. |
| `Catalog.FindAccount` | blueprints/cash_books.py:566-568 | The payment account with the id, found exactly when one exists. |
| `Catalog.PaymentItem` | blueprints/cash_books.py:604-625 | A payment account posts to its own account item when it has one. Otherwise it posts to the organisation's 現金 item for a cash account or its 普通預金 item for a bank account, when that item exists. Any other account type posts nowhere. |
| `Ledger.DerivedSet` | blueprints/cash_books.py:639-642 | The derived set of cash book `id` holds only ledger rows derived from it. |
| `Ledger.WithoutDerivedMembers` | blueprints/cash_books.py:639-642 | Deleting the derived set keeps exactly the rows not derived from the cash book. |
| `Ledger.WithoutDerivedIdempotent` | blueprints/cash_books.py:307-313 | Deleting a derived set twice is deleting it once, and nothing of the set survives. |
| `Ledger.ReplaceDerivedExact` | blueprints/cash_books.py:637-738 | After regeneration, the cash book's derived set is exactly the new rows, and every other row is untouched. |
| `Ledger.ReplaceDerivedIdempotent` | blueprints/cash_books.py:637-738 | Regenerating twice with the same rows leaves the same ledger as regenerating once. |
| `Ledger.ReplaceDerivedBalanced` | blueprints/cash_books.py:653-738 | Regeneration keeps every ledger row balanced when the new rows are balanced. |
| `Store.CashBookIndex` | blueprints/cash_books.py:302 | The index of the first cash book with the id, or none when no row has it. |
| `Store.VoucherIndex` | blueprints/journal_entries.py:223 | The index of the first voucher with the id, or none when no row has it. |
| `Store.Books.AddCashBook` | blueprints/cash_books.py:597-599 | A new cash book takes the next id and is appended; no other table changes. |
| `Store.Books.AddVoucher` | blueprints/journal_entries.py:173-174 | A new voucher takes the next id and is appended; no other table changes. |
| `CashBooks.IntOf` | blueprints/cash_books.py:493-499 | `int(v)` of a request value; a missing or null value is refused. |
| `CashBooks.SignedAmount` | blueprints/cash_books.py:484-495 | Gives +deposit when a deposit is given, otherwise -withdrawal. With neither, the line is refused for a missing amount. |
| `CashBooks.Postings` | blueprints/cash_books.py:652-738 | A line's derived rows are balanced, derived from the cash book and positive, at most two, and none exactly when the line posts nothing. |
| `CashBooks.SinglePosting` | blueprints/cash_books.py:713-738 | Without a tax split, a non-zero line posts one balanced row of \|amount\|. The payment account is debited for a deposit and credited for a withdrawal. |
| `CashBooks.TaxSplitPosting` | blueprints/cash_books.py:652-711 | With a tax amount and a tax account item, the line splits into a net row of \|amount\| - \|tax\| (dropped when zero) and a tax row of \|tax\| against the payment account. |
| `CashBooks.DateOf` | blueprints/cash_books.py:513-519 | A transaction date that parses is a valid calendar date. |
| `CashBooks.TaxCategoryOf` | blueprints/cash_books.py:532-541 | An empty tax category means none; any other value must convert with `int()`. |
| `CashBooks.CheckLine` | blueprints/cash_books.py:470-576 | The checks run in the handler's order. An accepted line has a date, an existing account item, an existing payment account and the signed amount. A line with no deposit and no withdrawal is refused for the missing amount. |
| `CashBooks.CheckLineOutcomes` | blueprints/cash_books.py:470-576 | A line is accepted exactly when all eleven checks pass. Otherwise the error is the one of the first failing check in the handler's order. An accepted line carries the converted date, item, amount, tax category, account and remarks. |
| `CashBooks.StepRefused` | blueprints/cash_books.py:470-576 | A refused line adds one error for its line number and changes nothing else. |
| `CashBooks.StepWithoutPaymentItem` | blueprints/cash_books.py:604-635 | When the payment account resolves to no account item, the line's cash book is not kept and not counted, and an error is recorded for the line. |
| `CashBooks.StepRegenerates` | blueprints/cash_books.py:578-738 | An accepted line appends its cash book and replaces that cash book's derived set with the line's postings. |
| `CashBooks.StepKeepsBalanced` | blueprints/cash_books.py:470-738 | Whatever one line does to the ledger, every ledger row stays balanced. |
| `CashBooks.PostLine` | blueprints/cash_books.py:466-744 | One pass of the handler's loop: a refused line only records its error; a line without a payment account records an error and gives back its cash book; an accepted line adds its cash book and regenerates its postings. |
| `CashBooks.RunAccountsForEveryLine` | blueprints/cash_books.py:459-744 | Every line of a batch is counted once: either as a created cash book or as an error. |
| `CashBooks.RunKeepsBalanced` | blueprints/cash_books.py:637-738 | Posting a batch keeps every ledger row balanced. |
| `CashBooks.RunKeepsIdsFresh` | blueprints/cash_books.py:597-602 | Cash-book ids stay below the id counter, so every new cash book has an id no earlier one has. |
| `CashBooks.PostLines` | blueprints/cash_books.py:465-744 | The handler's loop over the lines computes the batch state line by line, in order. |
| `CashBooks.BatchCreate` | blueprints/cash_books.py:445-765 | An empty batch is a bad request. With no line posted, the batch rolls back and reports the errors. Otherwise the ledger, the cash books and the counter are committed as the run left them, and no other table changes. |
| `CashBooks.BatchNeverSplits` | blueprints/cash_books.py:521-527 | The batch's tax amount is 0, so every line derives at most one row. |
| `CashBooks.PaymentAccount` | blueprints/cash_books.py:152-163 | The intended lookup: the organisation's account with the given name, or its first account when no name is given. |
| `CashBooks.PaymentAccountFirst` | blueprints/cash_books.py:152-163 | `.first()` of the intended lookup: the result is the first of the organisation's accounts with the name (any account when no name is given), and there is none exactly when no account matches or there is no organisation. |
| `CashBooks.PaymentAccountAsWritten` | blueprints/cash_books.py:154-159 | The lookup as written fails for every non-empty name, because the filter reads a column the Account table does not have. |
| `CashBooks.NamedPaymentAccountNeverPosts` | blueprints/cash_books.py:154-159 | A form line naming an existing payment account never reaches posting as written, but does with the intended lookup. |
| `CashBooks.FormPosting` | blueprints/cash_books.py:187-213 | The form posts one balanced row of \|amount\|: the payment item is debited for a receipt and credited for a payment. |
| `CashBooks.CheckForm` | blueprints/cash_books.py:123-150 | The form is accepted exactly when the stripped date is non-empty and parses, an account item is given, and an amount with tax is given (the column is NOT NULL). An empty date is refused first. |
| `CashBooks.FormRows` | blueprints/cash_books.py:152-214 | A stored form line posts one row exactly when its payment account resolves to an account item. |
| `CashBooks.CashBookCreate` | blueprints/cash_books.py:104-231 | A rejected form changes nothing. Otherwise the cash book takes the next id and the ledger grows by the line's rows. The outcome says whether a row was posted. The payment account is found with the corrected lookup `CashBooks.PaymentAccount`. As written, a named payment account never posts (third row under "## Findings"). |
| `CashBooks.CashBookDelete` | blueprints/cash_books.py:298-318 | An existing cash book and its whole derived set are removed. Rows the single-line form posted stay. An unknown id changes nothing. |
| `CashBooks.UpdateAmounts` | blueprints/cash_books.py:888-903 | The amount with tax follows the batch rule. The tax defaults to 0, and the amount without tax is \|amount\| - \|tax\|. The request is accepted exactly when the amount converts and the tax is absent or converts; an unconvertible amount is a server error. |
| `CashBooks.UpdateCashBook` | blueprints/cash_books.py:878-945 | An unknown id is not found. For a known id, the update is applied exactly when every conversion succeeds (amounts, date, tax-category name, account item id, counterparty, item name, remarks). A missing amount is 400. A date string strptime rejects is 400, any other date is 500. Every later failure is 500. An applied update rewrites only that cash book: its date, account item, stripped texts and the three amounts. The ledger is never touched. |
| `CashBooks.BatchUpdateAmountAsWritten` | blueprints/cash_books.py:977-1022 | The update refuses both sides positive and both sides zero; otherwise the amount is the debit when positive, else minus the credit. |
| `CashBooks.BatchUpdateAcceptsNegative` | blueprints/cash_books.py:980-1022 | A negative debit with no credit is accepted as amount 0; a negative credit becomes a positive amount. |
| `CashBooks.BatchUpdateAmount` | blueprints/cash_books.py:980-1022 | The corrected rule accepts exactly one positive side. The amount is non-zero, carries that side's sign and has that side's size. It agrees with the rule as written wherever it accepts. |
| `JournalEntries.ResolveRef` | blueprints/journal_entries.py:116-142 | An empty reference means none. `account_<n>` resolves through payment account n to its account item. Any other text is an account item id. |
| `JournalEntries.AccountRefResolves` | blueprints/journal_entries.py:119-126 | The reference the form renders for payment account n resolves to that account's item, and is refused when the account is unknown. |
| `JournalEntries.ItemRefResolves` | blueprints/journal_entries.py:127-128 | A plain account item id resolves to itself. |
| `JournalEntries.NonZero` | blueprints/journal_entries.py:110-114 | `form.get(..., type=int) or None`: a dimension id of 0 counts as none. |
| `JournalEntries.ResolveBoth` | blueprints/journal_entries.py:116-142 | A form resolves exactly when both of its references resolve. |
| `JournalEntries.Mirror` | blueprints/journal_entries.py:177-198 | The mirror row copies the voucher's items, amounts, taxes, date and texts, and is tagged with the voucher's id. |
| `JournalEntries.MirrorRows` | blueprints/journal_entries.py:295-298 | The ledger rows tagged as mirroring the voucher. |
| `JournalEntries.CheckCreate` | blueprints/journal_entries.py:144-174 | A form is accepted exactly when both references resolve, it has a date, both items are non-zero, the amounts are given and equal, and there is an organisation. Each refusal is the first failing check in order: reference, date, items, balance, then the stored columns. |
| `JournalEntries.JournalCreate` | blueprints/journal_entries.py:96-202 | A refused form changes nothing. An accepted one appends the voucher with the next id and exactly one mirror row. |
| `JournalEntries.CreateMirrorsOnce` | blueprints/journal_entries.py:177-199 | After creation, the voucher has exactly one mirror row. |
| `JournalEntries.FirstMirror` | blueprints/journal_entries.py:295-298 | The first ledger row mirroring the voucher, or none. |
| `JournalEntries.CheckEdit` | blueprints/journal_entries.py:273-280 | An edit is accepted exactly when both references resolve, it has a date, the amounts are given and equal, and both items are given. Each refusal is the first failing check in order: reference, date, balance, then the stored columns. |
| `JournalEntries.EditedVoucher` | blueprints/journal_entries.py:283-292 | The form's fields are written over the voucher; its id and organisation stay. |
| `JournalEntries.EditedMirror` | blueprints/journal_entries.py:300-315 | The mirror row takes the new items and amount and stays balanced and tagged. |
| `JournalEntries.JournalEdit` | blueprints/journal_entries.py:220-320 | An unknown id is not found and a refused edit changes nothing. An accepted edit overwrites the voucher and its first mirror; other rows stay. |
| `JournalEntries.EditKeepsMirrorInStep` | blueprints/journal_entries.py:283-315 | After an edit, the voucher and its mirror agree on items, amounts and date. |
| `JournalEntries.JournalDelete` | blueprints/journal_entries.py:336-345 | An existing voucher is removed; the ledger, mirror rows included, is unchanged. |
| `JournalEntries.VoucherList` | blueprints/journal_entries.py:56-72 | The list shows exactly the vouchers not registered from an imported transaction, narrowed to one account item when a filter is given. |
| `FiscalPeriods.CheckPeriod` | blueprints/fiscal_periods.py:93-111 | A period is accepted exactly when it has a name and both dates, an individual's dates are 1 January to 31 December of one year, and the start is strictly before the end as text. |
| `FiscalPeriods.IndividualPeriodIsCalendarYear` | blueprints/fiscal_periods.py:98-106 | An accepted individual period with full-length dates is one calendar year. |
| `FiscalPeriods.CalendarYearAccepted` | blueprints/fiscal_periods.py:98-111 | Every calendar year is accepted as an individual's period. |
| `FiscalPeriods.FiscalPeriod.constructor` | blueprints/fiscal_periods.py:114-124 | A new period holds the form's values and is open. |
| `FiscalPeriods.FiscalPeriod.Update` | blueprints/fiscal_periods.py:183-207 | Checks the form. When it is accepted, the values are written; when refused, nothing changes. The status never changes. |
| `FiscalPeriods.FiscalPeriod.Close` | blueprints/fiscal_periods.py:263-268 | An open period becomes closed. A closed period is refused and stays as it was. |
| `FiscalPeriods.FindPeriod` | blueprints/fiscal_periods.py:169-172 | The organisation's period with the id, found exactly when it exists. |
| `FiscalPeriods.CreatePeriod` | blueprints/fiscal_periods.py:81-129 | The form is checked first, then an organisation is required. The new period holds the form's values and is open. |
| `FiscalPeriods.UpdatePeriod` | blueprints/fiscal_periods.py:163-210 | An unknown period is not found and nothing changes. The found period is checked and updated as above: on acceptance every form value is written and the status stays; on refusal it is unchanged. Every other period is unchanged. |
| `FiscalPeriods.ClosePeriod` | blueprints/fiscal_periods.py:250-270 | An unknown period is not found and nothing changes. The found period closes once and keeps its name, dates, business type and notes; every other period is unchanged. |
| `FiscalPeriods.CloseTwice` | blueprints/fiscal_periods.py:263-267 | Of two successive closes of the same period, the second is always refused. |
| `OpeningBalances.FieldOfSplits` | blueprints/reports.py:152-155 | A `debit_<id>`/`credit_<id>` form key splits into its side and its id text. |
| `OpeningBalances.FieldOfFieldName` | blueprints/reports.py:152-155 | The form key the page renders for a side and an item splits back into that side and the item's decimal id. |
| `OpeningBalances.AmountOf` | blueprints/reports.py:157 | An empty box is 0; otherwise the text must parse as a number. |
| `OpeningBalances.ReadFieldCases` | blueprints/reports.py:152-157 | Other keys are ignored. A bad id, then a bad amount, is an error. Otherwise the entry gives the amount for the side and id its key names. |
| `OpeningBalances.FieldNameRoundTrip` | blueprints/reports.py:152-157 | The page's own field names read back as the side, item and amount they were rendered for. |
| `OpeningBalances.ReadAmounts` | blueprints/reports.py:150-161 | The form read in order gives each item once, in first-mention order. |
| `OpeningBalances.ReadAmountsKeys` | blueprints/reports.py:159-161 | A successful parse holds exactly the items some entry of the form names. |
| `OpeningBalances.MentionsLast` | blueprints/reports.py:150-161 | An item is named by a form exactly when it is named before the last entry or by the last entry. |
| `OpeningBalances.ReadAmountsValues` | blueprints/reports.py:159-161 | Each side of a parsed item holds the last amount the form gives for it, or 0. |
| `OpeningBalances.ReadAmountsStopsAtError` | blueprints/reports.py:151-157 | The first entry that fails to parse fails the whole form. |
| `OpeningBalances.ParseForm` | blueprints/reports.py:150-161 | The handler's loop over the form computes the parse above. |
| `OpeningBalances.LastIndex` | blueprints/reports.py:147 | The row the existing-balance dict keeps for an item is the last matching row of the period. |
| `OpeningBalances.UpsertAll` | blueprints/reports.py:164-185 | The save loop never drops a row, and never changes a row of another organisation or period. |
| `OpeningBalances.UpsertStep` | blueprints/reports.py:168-185 | One upsert sets the item's stored amounts and leaves every other item's stored amounts alone. |
| `OpeningBalances.UpsertAllStores` | blueprints/reports.py:164-187 | After the save, every item of the form stores its amounts and every other item keeps what it had. |
| `OpeningBalances.ExistingRows` | blueprints/reports.py:142-147 | The existing-balance dict maps exactly the period's items to their last row. |
| `OpeningBalances.SaveRows` | blueprints/reports.py:164-185 | The update-or-insert loop computes the upsert of every item, in form order. |
| `OpeningBalances.SaveOpeningBalances` | blueprints/reports.py:127-189 | Without a period or with a bad form nothing is written; otherwise the opening balances become the upserted rows. Other tables never change. |
| `TrialBalance.TouchKeys` | blueprints/reports.py:312-318 | `account_summary` keeps the items in first-met order, each once. |
| `TrialBalance.OpeningsFoldOk` | blueprints/reports.py:310-338 | The opening-balance loop fails exactly when a row names a missing item. |
| `TrialBalance.OpeningsFoldFound` | blueprints/reports.py:310-338 | When the opening loop succeeds, every row names an existing item. |
| `TrialBalance.FoundOpeningsFold` | blueprints/reports.py:310-338 | When every row names an existing item, the opening loop succeeds. |
| `TrialBalance.AddOpening` | blueprints/reports.py:310-338 | One opening row reports whether its item exists and, if so, adds its signed amount to that item's opening. |
| `TrialBalance.OpeningsFoldKeys` | blueprints/reports.py:310-338 | A successful loop lists each item of the rows once, in first-row order. |
| `TrialBalance.OpeningsFoldEntries` | blueprints/reports.py:310-338 | A successful loop gives each item its signed rows added up as its opening. |
| `TrialBalance.OpeningsFoldForm` | blueprints/reports.py:310-338 | The opening-balance loop fails exactly when a row names a missing item. Otherwise each item's opening is its signed rows added up. |
| `TrialBalance.PriorFoldEntry` | blueprints/reports.py:341-362 | Postings before the period move only the opening: debits add, credits subtract. |
| `TrialBalance.CurrentFoldEntry` | blueprints/reports.py:365-386 | The period's postings add only to the period debit and period credit. |
| `TrialBalance.SummarizeFigures` | blueprints/reports.py:307-386 | Checks `account_summary` against an independent reading: it fails exactly when an opening row names a missing item. Otherwise each item's three figures are the sums of what the rows post to it. |
| `TrialBalance.AddOpenings` | blueprints/reports.py:310-338 | The loop over the opening rows computes the opening fold. |
| `TrialBalance.ErrorPersists` | blueprints/reports.py:310-320 | A missing item fails the rest of the loop. |
| `TrialBalance.AddTo` | blueprints/reports.py:344-351 | An item met for the first time enters with zeros before the amount is added. |
| `TrialBalance.AddPrior` | blueprints/reports.py:341-362 | The loop over the earlier postings computes the prior fold. |
| `TrialBalance.AddCurrent` | blueprints/reports.py:365-386 | The loop over the period's postings computes the current fold. |
| `TrialBalance.Closing` | blueprints/reports.py:403-419 | The closing balance moves from the opening on the item's growing side. Revenue, liabilities and net assets grow by credits; the others grow by debits. |
| `TrialBalance.ClassifyRows` | blueprints/reports.py:392-444 | The loop files each summary item under the balance sheet or the profit-and-loss side and adds up the totals. |
| `TrialBalance.ClassifyKey` | blueprints/reports.py:392-444 | Filing one summary item gives the report the grouping fold builds for that item. |
| `TrialBalance.ClassifyTotals` | blueprints/reports.py:429-444 | The two sides' debit totals together, and their credit totals together, are the column totals over all items. |
| `TrialBalance.PostedRegroups` | blueprints/reports.py:365-386 | Added up item by item over distinct items covering the postings, a column is the column total of the postings. |
| `TrialBalance.BalancedTotals` | blueprints/reports.py:365-386 | Balanced postings have equal debit and credit totals. |
| `TrialBalance.TrialBalanceBalances` | blueprints/reports.py:365-444 | When the period's postings balance and name existing items: the two sides' debit totals together equal their credit totals together, and both equal what the period posted. |
| `TrialBalance.SummaryItemsExist` | blueprints/reports.py:397-400 | Every item of the summary exists when every row names existing items. |
| `TrialBalance.PeriodItemsSummarized` | blueprints/reports.py:365-386 | Every item a posting of the period names is in the summary. |
| `TrialBalance.PriorAndPeriodDisjoint` | blueprints/reports.py:281-302 | No posting counts both toward the derived opening and toward the period. With stored opening balances, no earlier posting is read. |
| `TrialBalance.TrialBalanceFigures` | blueprints/reports.py:256-444 | Without a period there is no report. Otherwise the report is the split of the summary of the period's openings, earlier postings and period postings, or its failure. |
| `SortKeys.KeyOrderIsStrictTotal` | blueprints/reports.py:517-525 | Python's tuple order on sort keys is irreflexive, transitive, total and asymmetric. |
| `SortKeys.FirstPartDecides` | blueprints/reports.py:517-525 | Keys whose first parts are integers are ordered by those integers first. |
| `SortKeys.SortBy` | blueprints/reports.py:534 | `sorted(..., key=...)` returns a permutation of its input that is ordered by the key. |
| `SortKeys.SortByStable` | blueprints/reports.py:534 | The sort is stable: for every key, the elements with that key appear in the result in their input order. |
| `SortKeys.InsertSorted` | blueprints/reports.py:534 | Inserting after every element with a key not greater keeps a sequence sorted. |
| `SortKeys.SortedUnique` | blueprints/reports.py:579-587 | Two sorted arrangements of the same elements are equal when no two elements share a key. |
| `SortKeys.SortIgnoresInputOrder` | blueprints/reports.py:975-978 | Under distinct keys, the sorted result does not depend on the input order. |
| `BalanceSheet.Get` | blueprints/reports.py:518-520 | `dict.get(k, default)` is the entry when present and the default otherwise. |
| `BalanceSheet.MajorRank` | blueprints/reports.py:453-457 | Ranks 資産, 負債 and 純資産 as 1, 2 and 3, and every other major category as 99. |
| `BalanceSheet.BsSortKey` | blueprints/reports.py:449-525 | The balance-sheet key starts with the major-category rank. |
| `BalanceSheet.BsDataMajorsInOrder` | blueprints/reports.py:534 | In the sorted balance sheet, assets come before liabilities, and liabilities before net assets. |
| `BalanceSheet.CategoryRows` | blueprints/reports.py:604-607 | A category's rows are exactly the rows filed under it. |
| `BalanceSheet.BsStairStep` | blueprints/reports.py:594-607 | The stair-step view has exactly the eight listed categories, each with exactly its rows in order. |
| `BalanceSheet.MapRow` | blueprints/reports.py:707 | The dict built from bs_data finds a row for an id exactly when one exists. |
| `BalanceSheet.BsDataFull` | blueprints/reports.py:718-743 | The full list has one row per balance-sheet account of the organisation, in table order. An account without postings shows zeros. |
| `BalanceSheet.ZeroRowNotPosted` | blueprints/reports.py:720-743 | An account shows a zero row that is not one of the trial-balance rows exactly when it has no trial-balance row. |
| `BalanceSheet.BsDataFullKeepsRows` | blueprints/reports.py:707-723 | Every trial-balance row of a balance-sheet account of the organisation appears in the full list. |
| `BalanceSheet.FullMajorRank` | blueprints/reports.py:750-755 | Ranks 資産 as 1, both 負債 spellings as 2 and 純資産 as 3. |
| `BalanceSheet.BsSortKeyFull` | blueprints/reports.py:746-848 | The full list's key starts with that rank. |
| `BalanceSheet.BsDataFullMajorsInOrder` | blueprints/reports.py:850 | In the sorted full list, assets come first, then liabilities, then net assets. |
| `BsTree.BuildTree` | blueprints/reports.py:852-881 | The tree-building loop computes the grouping fold. |
| `BsTree.AddToTree` | blueprints/reports.py:854-866 | One row is appended under its major, middle and small category, each created when first met. |
| `BsTree.TreeRows` | blueprints/reports.py:854-866 | Under every category path, the tree lists exactly the input rows filed there, in input order. |
| `BsTree.TreeOfGrouped` | blueprints/reports.py:860-866 | Every level of the tree names a category once, no group is empty, and each row sits under its own path. |
| `BsTree.PickListed` | blueprints/reports.py:869-873 | The first reordering loop takes the listed major categories present in the tree, in the listed order. |
| `BsTree.AddUnlisted` | blueprints/reports.py:874-877 | The second loop adds the remaining major categories in tree order. |
| `BsTree.OrderMajors` | blueprints/reports.py:869-877 | The reordering is the listed categories followed by the others. |
| `BsTree.PickedOrdered` | blueprints/reports.py:869-873 | The picked categories follow the listed order. |
| `BsTree.ReorderedSameGroups` | blueprints/reports.py:869-877 | Reordering keeps exactly the tree's groups. |
| `BsTree.UnlistedMembers` | blueprints/reports.py:874-876 | The unlisted tail holds exactly the groups whose major category is not in the fixed order. |
| `BsTree.ReorderedDistinct` | blueprints/reports.py:869-877 | The reordered tree shows every major category once. |
| `BsTree.ReorderedListedFirst` | blueprints/reports.py:869-877 | Listed categories come first, in listed order, before every unlisted one. |
| `BsTree.RowsTotalAppend` | blueprints/reports.py:891-894 | The four column sums over two row lists add up. |
| `BsTree.MidTotalIsRowSum` | blueprints/reports.py:905-910 | A middle-category subtotal, the sum of its small subtotals, is the sum over all its rows. |
| `BsTree.MidSubtotal` | blueprints/reports.py:884-910 | One middle category's loops give each small category the sums of its rows, and the middle category the sums of all its rows. |
| `BsTree.MajorSubtotals` | blueprints/reports.py:884-914 | The loop over one major's middle categories computes their subtotals. |
| `BsTree.BsSubtotals` | blueprints/reports.py:884-914 | The loops over the tree compute the subtotals, middle category by middle category. |
| `BsTree.FlatSubtotalKeysCollide` | blueprints/reports.py:896-914 | As written: with a middle category named 流動資産_現金, a small category's subtotal is overwritten by a middle category's. |
| `BsTree.KeyedSubtotalsExact` | blueprints/reports.py:884-914 | Corrected: keyed by the category path, every small and middle subtotal reads back exactly. |
| `BsTree.SubtotalsDistinct` | blueprints/reports.py:884-914 | The subtotals of a grouped tree name each middle category once, and each small category once under it. |
| `PlStair.PlCat` | blueprints/reports.py:247-254 | An account's P/L category is its stripped pl_category, else its middle category, else its small category. |
| `PlStair.PlCatOrderRange` | blueprints/reports.py:545-567 | The listed stages are numbered 10 to 140. |
| `PlStair.PlOrderFacts` | blueprints/reports.py:569-577 | The small category decides the stage when it is listed, then the middle category, then the P/L category. 999 means none is listed. |
| `PlStair.PlSortKey` | blueprints/reports.py:569-585 | The P/L key starts with the account's stage. |
| `PlStair.PlDataStagesInOrder` | blueprints/reports.py:587 | Sorted pl_data lists the accounts stage by stage; the stage never decreases. |
| `PlStair.BucketSpellings` | blueprints/reports.py:637-663 | Names the category spellings that fall into each of the nine buckets, including the three spellings of 販管費. |
| `PlStair.BucketRowsMembers` | blueprints/reports.py:632-663 | A bucket's list holds exactly the rows of that bucket. |
| `PlStair.AddIn` | blueprints/reports.py:632-663 | Adding to one bucket total leaves the other eight as they were. |
| `PlStair.StairBucketSum` | blueprints/reports.py:622-663 | Each bucket total is the sum of the closing balances of the bucket's rows. |
| `PlStair.PlStairStep` | blueprints/reports.py:610-663 | The loop gives one list and one total per bucket, as above. |
| `PlStair.Waterfall` | blueprints/reports.py:666-682 | The profit lines read the bucket totals. |
| `PlStair.NetStep` | blueprints/reports.py:678-682 | Income buckets raise net income by their amount; expense buckets lower it. |
| `PlStair.NetIsSignedSum` | blueprints/reports.py:632-682 | Net income is the signed sum of the closing balances of pl_data. |
| `PlStair.WaterfallSteps` | blueprints/reports.py:666-682 | Each profit line is the line above it plus the income and minus the expense buckets between them. |
| `PlTree.LineOf` | blueprints/reports.py:944-959 | An account shows its pl_data figures, or zeros when it has none, under its small category and stage. |
| `PlTree.Lines` | blueprints/reports.py:934-962 | One line per account, in order: the i-th line is the i-th account's line. |
| `PlTree.AddAccount` | blueprints/reports.py:934-962 | One pass of the loop files an account under its small category. |
| `PlTree.BuildPlTree` | blueprints/reports.py:921-962 | The loop over the organisation's P/L accounts computes the grouping fold. |
| `PlTree.MinOrder` | blueprints/reports.py:965-971 | A small category's priority is the smallest stage among its accounts. |
| `PlTree.PlTreeSound` | blueprints/reports.py:934-962 | Every small category appears once and is non-empty. Its totals are the sums over its accounts. |
| `PlTree.PlTreeWeighted` | blueprints/reports.py:960-962 | Regrouping by small category loses nothing: a closing total weighted per category equals the same weighting over the accounts. |
| `PlTree.GroupKeyLess` | blueprints/reports.py:977 | Small categories order by priority, then by name. |
| `PlTree.SortedNamesDistinct` | blueprints/reports.py:974-980 | Sorting keeps the small-category names distinct. |
| `PlTree.PlTreeOrderStrict` | blueprints/reports.py:974-980 | The ordered tree has no ties: priorities never decrease, and names increase within a priority. |
| `PlTree.PlTreeOrderDeterministic` | blueprints/reports.py:974-980 | Two arrangements of the same small categories, with distinct names, sort alike. So the order in which the categories were built does not affect the ordered tree. |
| `PlTree.BuildPlMidTree` | blueprints/reports.py:983-994 | The loop over the ordered tree computes the middle-category grouping. |
| `PlTree.PlaceMidNames` | blueprints/reports.py:985-994 | Filing a small category keeps the middle-category names distinct. |
| `PlTree.PlaceMidOnly` | blueprints/reports.py:985-994 | After filing, every small category under a middle category is one of the tree's, under its own middle category. |
| `PlTree.PlaceMidCover` | blueprints/reports.py:985-994 | After filing, every small category of the tree sits under its middle category. |
| `PlTree.PlMidTreeSound` | blueprints/reports.py:983-994 | Each middle category appears once and holds exactly its small categories, in order. |
| `PlTree.PlaceMidOrder` | blueprints/reports.py:985-994 | After filing, each middle category holds exactly the small categories of the tree with that middle category, in the order of the tree. |
| `PlTree.ContributionsOfOne` | blueprints/reports.py:1000-1046 | A small category contributes to the profit cascade exactly once, with the sign of its income or expense group. |
| `PlTree.SubtotalNetIsSignedSum` | blueprints/reports.py:997-1050 | The cascade's net profit is the signed sum of the small categories' closing totals. |
| `PlTree.SubtotalsIgnoreOrder` | blueprints/reports.py:997-1050 | The cascade does not depend on the order of the small categories. |
| `PlTree.PlNetFromAccounts` | blueprints/reports.py:921-1050 | End to end: the net profit shown is the signed sum of the closing balances of the organisation's P/L accounts. |
| `LedgerView.FindPeriodRow` | blueprints/reports.py:1244-1248 | The organisation's period with the id, found exactly when it exists. Without an organisation, nothing matches. |
| `LedgerView.FindOrgItem` | blueprints/reports.py:1249-1253 | The organisation's account item with the id, found exactly when it exists. |
| `LedgerView.OpeningBalance` | blueprints/reports.py:1257-1280 | The opening balance is the earlier postings' debits to the account less their credits, negated for a revenue account. |
| `LedgerView.WalkStep` | blueprints/reports.py:1308-1352 | One posting moves the running balance by its signed amount, advances the month totals and appends its line. |
| `LedgerView.Walk` | blueprints/reports.py:1302-1362 | Fails exactly when some posting's counterpart item is gone. Otherwise gives one line per posting with the counterpart and the running balance, plus the monthly totals. |
| `LedgerView.LedgerPage` | blueprints/reports.py:1211-1376 | The page is empty until a period and an item are chosen and found. Otherwise it shows the opening balance, one line per period posting and the monthly totals. |
| `LedgerView.CurrentRowsByDate` | blueprints/reports.py:1283-1300 | The period's postings are listed in date order. |
| `LedgerView.MonthsRunTotals` | blueprints/reports.py:1308-1341 | During the loop, the closed months plus the open month hold exactly the debit and credit columns so far. The open month is the last posting's month. |
| `LedgerView.MonthUpdate` | blueprints/reports.py:1310-1341 | A posting in a new month closes the open month with its totals; the posting's amounts then go to the open month. |
| `LedgerView.MonthTotalsCoverPostings` | blueprints/reports.py:1308-1362 | The monthly totals add up to the debit and credit columns of the period. |
| `LedgerView.MovementSum` | blueprints/reports.py:1324-1341 | The balance moves by the debit column less the credit column, the other way round for revenue. |
| `LedgerView.LedgerBalancesAgree` | blueprints/reports.py:1302-1362 | The last line's balance is the opening balance moved by the monthly totals: the lines and the monthly totals agree. |

## Left out

- Floating point: amounts are integers (minor units). `float(...)` conversions of form values are modelled as integer parsing.
- `Text.ParseDate`: digits are the ASCII digits. Python's `strptime` also accepts other Unicode decimal digits, which the model refuses. The space-padded day that `%d` accepts is modelled.
- `Text.Lower`: lowers the ASCII letters only. Python's `str.lower` also maps other characters, for example U+212A KELVIN SIGN to `k`, so an account type `BAN\u212A` contains `bank` in Python (blueprints/cash_books.py:611) but not in the model.
- The batch's fallback to the organisation's first account when a line has no account id (blueprints/cash_books.py:569-572) is not modelled: the earlier check at blueprints/cash_books.py:479-481 refuses such a line, so the branch cannot run.
- `Text.ParseInt` accepts an optional sign and digits only. Python's `int()` also skips surrounding white space and underscores.
- SQL query order is modelled as table order. `order_by` on dates is the stable sort of `SortKeys`, so rows with equal dates keep table order.
- The trial balance's default choice of a period when none is selected (blueprints/reports.py:222-224) is not modelled. `TrialBalance.TrialBalanceFigures` takes the period as a parameter, and a missing period is `Err(NoPeriod)`.
- Other endpoints are not part of this model: fiscal-period delete, cash-book edit, the general-ledger listing page (blueprints/reports.py:1083), and orphaned-voucher cleanup (blueprints/reports.py:1181).
- `CashBooks.BatchUpdateAmount`: of the batch-update endpoint only the amount rule is modelled. The writes of the other fields and the tax-category and account-item lookups are left out.
- `CashBooks.UpdateCashBook`: the tax-category lookup by name and the payment-account lookup are not modelled. The tax category and payment account it writes are left as they were; only the failure of `.strip()` on the tax-category value is modelled.
- `JournalEntries.VoucherList`: lists in table order, not by date descending, and without the search text filter.
- SQLite id reuse after deletes is not modelled: ids come from counters that only grow.
- Debug logging, flash messages and template rendering are left out: they do not change stored data.
- `OpeningBalances.ReadAmounts`: reads the form as a list of (key, value) pairs. Duplicate keys, which a browser does not send for these boxes, are kept in order.
- `PlTree.LineOf`: the P/L tree assumes account ids are unique, as the dict keyed by id does.
- `LedgerView.MonthTotalsCoverPostings`: does not cover a posting whose date is empty, because the page treats an empty month as no month.
- The session, login, user and organisation switching are left out; the current organisation is a parameter.
- `CashBooks.CashBookCreate`: the form's tax_rate, department and memo_tag fields are not stored in the modelled cash-book row. None of them affects posting.

## Findings

| source | as written | input that shows it | evidently intended | confidence | as-written member | corrected member |
|---|---|---|---|---|---|---|
| blueprints/reports.py:896-914 | Subtotals are stored in one dict keyed by `f"{major}_{mid}_{sub}"` and `f"{major}_{mid}"` | Under 資産, middle category 流動資産 with small category 現金, and a second middle category 流動資産_現金: the second's subtotal overwrites the first's small subtotal | Each subtotal is readable under its own category path | not executed | `BsTree.FlatSubtotalKeysCollide` | `BsTree.KeyedSubtotalsExact` |
| blueprints/cash_books.py:980-1022 | Only "both positive" and "both zero" are refused; the amount is the debit if positive, else minus the credit | debit = -5, credit = 0 gives amount 0; debit = 0, credit = -5 gives amount +5 | Exactly one side positive; the amount has that side's size and sign | not executed | `CashBooks.BatchUpdateAcceptsNegative` | `CashBooks.BatchUpdateAmount` |
| blueprints/cash_books.py:154-159 | The payment account is looked up by `Account.name`, a column the Account table does not have (it has `account_name`) | Any non-empty payment account name: the lookup raises after the cash book was committed, so no ledger row is posted | Look the account up by its name and post the row | not executed | `CashBooks.NamedPaymentAccountNeverPosts` | `CashBooks.PaymentAccount` |
