/** Posting cash-book lines (出納帳) into the general ledger: the JSON batch
    entry, the single-line form, deletion of a line with its postings, and the
    amount rules of the two update endpoints. */
module CashBooks {
  import opened Common
  import opened Text
  import opened Catalog
  import opened Ledger
  import opened Store

  // ---------------------------------------------------------------------------
  // Request values

  /** int(v) on a request value; None where Python raises. */
  function IntOf(v: Json): (r: Option<int>)
    ensures v.JInt? ==> r == Some(v.n)
    ensures (v.Absent? || v.JNull?) ==> r.None?
  {
    match v
    case JInt(n) => Some(n)
    case JStr(s) => ParseInt(s)
    case _ => None
  }

  /** Why a batch line was refused, in the order the handler checks. */
  datatype RowError =
    | MissingDate | MissingItem | MissingAccount | MissingAmount | BadAmount
    | BadItemId | ItemNotFound | BadDate | BadTaxCategory | BadAccountId
    | AccountNotFound | BadRemarks | NoPaymentItem

  /** An error reported for the 1-based line number of the batch. */
  datatype RowFailure = RowFailure(line: int, error: RowError)

  /** amount_with_tax of a line: +deposit when a deposit is given, otherwise
      -withdrawal; a line with neither is refused. */
  function SignedAmount(deposit: Json, withdrawal: Json): (r: Result<int, RowError>)
    ensures !Truthy(deposit) && !Truthy(withdrawal) ==> r == Err(MissingAmount)
    ensures Truthy(deposit) ==>
      (r.Ok? <==> IntOf(deposit).Some?) && (r.Ok? ==> r.value == IntOf(deposit).value)
    ensures !Truthy(deposit) && Truthy(withdrawal) ==>
      (r.Ok? <==> IntOf(withdrawal).Some?) && (r.Ok? ==> r.value == -IntOf(withdrawal).value)
    ensures r.Err? ==> r.error in {MissingAmount, BadAmount}
  {
    if !Truthy(deposit) && !Truthy(withdrawal) then Err(MissingAmount)
    else if Truthy(deposit) then
      (match IntOf(deposit) case Some(n) => Ok(n) case None => Err(BadAmount))
    else
      (match IntOf(withdrawal) case Some(n) => Ok(-n) case None => Err(BadAmount))
  }

  // ---------------------------------------------------------------------------
  // The posting rule

  /** One batch-derived ledger row. */
  function BatchRow(org: int, date: string, debit: int, credit: int, amount: int,
                    summary: string, sourceType: string, cashBookId: int): LedgerRow
  {
    LedgerRow(Some(org), date, debit, amount, None, credit, amount, None, summary, "",
              NoDims, sourceType, Some(cashBookId))
  }

  /** Whether a line counts as posted (created_count is incremented). */
  predicate Posts(amount: int, tax: int, taxItem: Option<int>)
  {
    (tax != 0 && taxItem.Some?) || amount != 0
  }

  /** The rows a cash-book line with signed amount `amount` and tax `tax`
      derives. `accountItem` is the payment account's item, `txnItem` the
      line's own item, `taxItem` the organisation's consumption-tax item. A
      deposit (amount >= 0) debits the payment account; a withdrawal credits it. */
  function Postings(org: int, date: string, amount: int, tax: int, accountItem: int,
                    txnItem: int, taxItem: Option<int>, remarks: string, cashBookId: int): (r: seq<LedgerRow>)
    ensures AllBalanced(r)
    ensures forall i :: 0 <= i < |r| ==> DerivedFrom(r[i], cashBookId) && r[i].debitAmount > 0
    ensures r != [] <==> Posts(amount, tax, taxItem)
    ensures |r| <= 2
  {
    var debitSide := if amount >= 0 then accountItem else txnItem;
    var creditSide := if amount >= 0 then txnItem else accountItem;
    if tax != 0 && taxItem.Some? then
      var net := Abs(amount) - Abs(tax);
      var netRows := if net != 0 then [BatchRow(org, date, debitSide, creditSide, Abs(net), remarks, "batch_entry_net", cashBookId)] else [];
      var taxRow :=
        if amount >= 0 then BatchRow(org, date, accountItem, taxItem.value, Abs(tax), remarks + " (消費税)", "batch_entry_tax", cashBookId)
        else BatchRow(org, date, taxItem.value, accountItem, Abs(tax), remarks + " (消費税)", "batch_entry_tax", cashBookId);
      netRows + [taxRow]
    else if amount != 0 then
      [BatchRow(org, date, debitSide, creditSide, Abs(amount), remarks, "batch_entry", cashBookId)]
    else []
  }

  /** Without a tax split, a non-zero amount gives exactly one balanced row of
      |amount|: debit payment account / credit line item for a deposit, the
      reverse for a withdrawal. */
  lemma SinglePosting(org: int, date: string, amount: int, tax: int, accountItem: int,
                      txnItem: int, taxItem: Option<int>, remarks: string, id: int)
    requires amount != 0 && (tax == 0 || taxItem.None?)
    ensures var r := Postings(org, date, amount, tax, accountItem, txnItem, taxItem, remarks, id);
      && |r| == 1
      && r[0].debitAmount == Abs(amount) && r[0].creditAmount == Abs(amount)
      && r[0].sourceType == "batch_entry" && r[0].sourceId == Some(id)
      && (amount >= 0 ==> r[0].debitItem == accountItem && r[0].creditItem == txnItem)
      && (amount < 0 ==> r[0].debitItem == txnItem && r[0].creditItem == accountItem)
  {
  }

  /** With a tax amount and a tax account, the line splits into a net row of
      |amount| - |tax| (left out when that is zero) and a tax row of |tax|,
      both tagged with the cash book's id. */
  lemma TaxSplitPosting(org: int, date: string, amount: int, tax: int, accountItem: int,
                        txnItem: int, taxItem: Option<int>, remarks: string, id: int)
    requires tax != 0 && taxItem.Some?
    ensures var r := Postings(org, date, amount, tax, accountItem, txnItem, taxItem, remarks, id);
      var net := Abs(amount) - Abs(tax);
      && |r| == (if net != 0 then 2 else 1)
      && r[|r| - 1].sourceType == "batch_entry_tax" && r[|r| - 1].debitAmount == Abs(tax)
      && (amount >= 0 ==> r[|r| - 1].debitItem == accountItem && r[|r| - 1].creditItem == taxItem.value)
      && (amount < 0 ==> r[|r| - 1].debitItem == taxItem.value && r[|r| - 1].creditItem == accountItem)
      && (net != 0 ==> r[0].sourceType == "batch_entry_net" && r[0].debitAmount == Abs(net))
  {
  }

  // ---------------------------------------------------------------------------
  // The JSON batch

  /** One element of the `transactions` array. */
  datatype BatchLine = BatchLine(
    date: Json, itemId: Json, accountId: Json, deposit: Json, withdrawal: Json,
    taxCategory: Json, remarks: Json)

  /** What the checks of a line establish before anything is written. */
  datatype Checked = Checked(
    date: Date, itemId: int, amount: int, taxCategory: Option<int>, account: Account,
    remarks: string, rawRemarks: string)

  function DateOf(v: Json): (r: Option<Date>)
    ensures r.Some? ==> ValidDate(r.value)
  {
    if v.JStr? then ParseDate(v.s) else None
  }

  /** tax_category_id: "" means none, anything else must convert with int(). */
  function TaxCategoryOf(v: Json): (r: Result<Option<int>, RowError>)
    ensures v == JStr("") ==> r == Ok(None)
    ensures v != JStr("") ==> (r.Ok? <==> IntOf(v).Some?)
  {
    if v == JStr("") then Ok(None)
    else match IntOf(v)
      case Some(n) => Ok(Some(n))
      case None => Err(BadTaxCategory)
  }

  /** transaction.get('remarks', '').strip(); None where strip() would raise. */
  function RemarksOf(v: Json): Option<string>
  {
    match v
    case Absent => Some("")
    case JStr(s) => Some(Strip(s))
    case _ => None
  }

  function RawRemarks(v: Json): string
  {
    if v.JStr? then v.s else ""
  }

  /** The per-line checks, in the handler's order. */
  function CheckLine(line: BatchLine, items: seq<AccountItem>, accounts: seq<Account>): (r: Result<Checked, RowError>)
    ensures r.Ok? ==> Truthy(line.date) && Truthy(line.itemId) && Truthy(line.accountId)
    ensures r.Ok? ==> FindItem(items, r.value.itemId).Some? && r.value.account in accounts
    ensures r.Ok? ==> SignedAmount(line.deposit, line.withdrawal) == Ok(r.value.amount)
    ensures (!Truthy(line.deposit) && !Truthy(line.withdrawal) && Truthy(line.date)
             && Truthy(line.itemId) && Truthy(line.accountId)) ==> r == Err(MissingAmount)
  {
    if !Truthy(line.date) then Err(MissingDate)
    else if !Truthy(line.itemId) then Err(MissingItem)
    else if !Truthy(line.accountId) then Err(MissingAccount)
    else match SignedAmount(line.deposit, line.withdrawal)
      case Err(e) => Err(e)
      case Ok(amount) =>
        match IntOf(line.itemId)
        case None => Err(BadItemId)
        case Some(itemId) =>
          if FindItem(items, itemId).None? then Err(ItemNotFound)
          else match DateOf(line.date)
            case None => Err(BadDate)
            case Some(date) =>
              match TaxCategoryOf(line.taxCategory)
              case Err(e) => Err(e)
              case Ok(taxCategory) =>
                match IntOf(line.accountId)
                case None => Err(BadAccountId)
                case Some(accountId) =>
                  match FindAccount(accounts, accountId)
                  case None => Err(AccountNotFound)
                  case Some(account) =>
                    match RemarksOf(line.remarks)
                    case None => Err(BadRemarks)
                    case Some(remarks) =>
                      Ok(Checked(date, itemId, amount, taxCategory, account, remarks, RawRemarks(line.remarks)))
  }

  /** The line's item and account fields and its amount are given. */
  predicate GivenWithAmount(line: BatchLine)
  {
    Truthy(line.date) && Truthy(line.itemId) && Truthy(line.accountId)
    && SignedAmount(line.deposit, line.withdrawal).Ok?
  }

  /** The line's item id converts and names an existing account item. */
  predicate ItemResolves(line: BatchLine, items: seq<AccountItem>)
  {
    IntOf(line.itemId).Some? && FindItem(items, IntOf(line.itemId).value).Some?
  }

  /** The line's account id converts and names an existing account. */
  predicate AccountResolves(line: BatchLine, accounts: seq<Account>)
  {
    IntOf(line.accountId).Some? && FindAccount(accounts, IntOf(line.accountId).value).Some?
  }

  /** A line is accepted exactly when every check passes; otherwise the error
      is the one of the first check that fails, in the handler's order. An
      accepted line carries the converted values. */
  lemma CheckLineOutcomes(line: BatchLine, items: seq<AccountItem>, accounts: seq<Account>)
    ensures CheckLine(line, items, accounts).Ok? <==>
      && GivenWithAmount(line) && ItemResolves(line, items) && DateOf(line.date).Some?
      && TaxCategoryOf(line.taxCategory).Ok? && AccountResolves(line, accounts) && RemarksOf(line.remarks).Some?
    ensures !Truthy(line.date) ==> CheckLine(line, items, accounts) == Err(MissingDate)
    ensures Truthy(line.date) && !Truthy(line.itemId) ==> CheckLine(line, items, accounts) == Err(MissingItem)
    ensures Truthy(line.date) && Truthy(line.itemId) && !Truthy(line.accountId) ==>
      CheckLine(line, items, accounts) == Err(MissingAccount)
    ensures Truthy(line.date) && Truthy(line.itemId) && Truthy(line.accountId)
            && SignedAmount(line.deposit, line.withdrawal).Err? ==>
      CheckLine(line, items, accounts) == Err(SignedAmount(line.deposit, line.withdrawal).error)
    ensures GivenWithAmount(line) && IntOf(line.itemId).None? ==> CheckLine(line, items, accounts) == Err(BadItemId)
    ensures GivenWithAmount(line) && IntOf(line.itemId).Some? && !ItemResolves(line, items) ==>
      CheckLine(line, items, accounts) == Err(ItemNotFound)
    ensures GivenWithAmount(line) && ItemResolves(line, items) && DateOf(line.date).None? ==>
      CheckLine(line, items, accounts) == Err(BadDate)
    ensures GivenWithAmount(line) && ItemResolves(line, items) && DateOf(line.date).Some?
            && TaxCategoryOf(line.taxCategory).Err? ==>
      CheckLine(line, items, accounts) == Err(BadTaxCategory)
    ensures GivenWithAmount(line) && ItemResolves(line, items) && DateOf(line.date).Some?
            && TaxCategoryOf(line.taxCategory).Ok? && IntOf(line.accountId).None? ==>
      CheckLine(line, items, accounts) == Err(BadAccountId)
    ensures GivenWithAmount(line) && ItemResolves(line, items) && DateOf(line.date).Some?
            && TaxCategoryOf(line.taxCategory).Ok? && IntOf(line.accountId).Some? && !AccountResolves(line, accounts) ==>
      CheckLine(line, items, accounts) == Err(AccountNotFound)
    ensures GivenWithAmount(line) && ItemResolves(line, items) && DateOf(line.date).Some?
            && TaxCategoryOf(line.taxCategory).Ok? && AccountResolves(line, accounts) && RemarksOf(line.remarks).None? ==>
      CheckLine(line, items, accounts) == Err(BadRemarks)
    ensures CheckLine(line, items, accounts).Ok? ==>
      CheckLine(line, items, accounts).value ==
        Checked(DateOf(line.date).value, IntOf(line.itemId).value, SignedAmount(line.deposit, line.withdrawal).value,
                TaxCategoryOf(line.taxCategory).value, FindAccount(accounts, IntOf(line.accountId).value).value,
                RemarksOf(line.remarks).value, RawRemarks(line.remarks))
  {
  }

  /** The cash book a checked line creates. The batch does not compute tax yet:
      its tax amount is always 0. */
  function LineCashBook(id: int, org: int, c: Checked): CashBook
    requires ValidDate(c.date)
  {
    CashBook(id, org, FormatDate(c.date), c.itemId, c.taxCategory, "", "", c.account.name,
             c.remarks, c.amount, Some(Abs(c.amount)), Some(0))
  }

  function TaxItemId(items: seq<AccountItem>, org: int): Option<int>
  {
    match FindTaxItem(items, org)
    case Some(it) => Some(it.id)
    case None => None
  }

  /** The rows an accepted line derives (tax amount 0). */
  function LinePostings(org: int, c: Checked, accountItem: int, items: seq<AccountItem>, id: int): seq<LedgerRow>
    requires ValidDate(c.date)
  {
    Postings(org, FormatDate(c.date), c.amount, 0, accountItem, c.itemId, TaxItemId(items, org), c.rawRemarks, id)
  }

  /** The working state of the batch: the session's view of the tables and the
      handler's counters. */
  datatype BatchState = BatchState(
    ledger: seq<LedgerRow>,
    cashBooks: seq<CashBook>,
    nextId: int,
    created: int,
    count: int,
    errors: seq<RowFailure>)

  /** The effect of line number idx + 1. */
  function Step(st: BatchState, idx: int, line: BatchLine, org: int,
                items: seq<AccountItem>, accounts: seq<Account>): BatchState
  {
    match CheckLine(line, items, accounts)
    case Err(e) => st.(errors := st.errors + [RowFailure(idx + 1, e)])
    case Ok(c) =>
      var pay := PaymentItem(items, org, c.account);
      if !Present(pay) then
        st.(nextId := st.nextId + 1, errors := st.errors + [RowFailure(idx + 1, NoPaymentItem)])
      else
        var id := st.nextId;
        var rows := LinePostings(org, c, pay.value, items, id);
        st.(ledger := ReplaceDerived(st.ledger, id, rows),
            cashBooks := st.cashBooks + [LineCashBook(id, org, c)],
            nextId := id + 1,
            created := st.created + (if rows != [] then 1 else 0),
            count := st.count + 1)
  }

  /** The state after the lines, processed in order. */
  function Run(st: BatchState, lines: seq<BatchLine>, org: int,
               items: seq<AccountItem>, accounts: seq<Account>): BatchState
    decreases |lines|
  {
    if lines == [] then st
    else Step(Run(st, lines[..|lines| - 1], org, items, accounts), |lines| - 1, lines[|lines| - 1], org, items, accounts)
  }

  /** A refused line changes nothing but the error list. */
  lemma StepRefused(st: BatchState, idx: int, line: BatchLine, org: int,
                    items: seq<AccountItem>, accounts: seq<Account>)
    requires CheckLine(line, items, accounts).Err?
    ensures var s := Step(st, idx, line, org, items, accounts);
      && s.ledger == st.ledger && s.cashBooks == st.cashBooks
      && s.created == st.created && s.count == st.count
      && s.errors == st.errors + [RowFailure(idx + 1, CheckLine(line, items, accounts).error)]
  {
  }

  /** When the payment account resolves to no account item, the cash book that
      was added for the line is removed again and not counted. */
  lemma StepWithoutPaymentItem(st: BatchState, idx: int, line: BatchLine, org: int,
                               items: seq<AccountItem>, accounts: seq<Account>)
    requires CheckLine(line, items, accounts).Ok?
    requires !Present(PaymentItem(items, org, CheckLine(line, items, accounts).value.account))
    ensures var s := Step(st, idx, line, org, items, accounts);
      && s.ledger == st.ledger && s.cashBooks == st.cashBooks
      && s.created == st.created && s.count == st.count
      && s.errors == st.errors + [RowFailure(idx + 1, NoPaymentItem)]
  {
  }

  /** An accepted line adds its cash book and replaces that cash book's derived
      set by the rows of the posting rule; no other ledger row changes. A
      non-zero amount yields one row of |amount|, debit payment account for a
      deposit and credit payment account for a withdrawal. */
  lemma StepRegenerates(st: BatchState, idx: int, line: BatchLine, org: int,
                        items: seq<AccountItem>, accounts: seq<Account>)
    requires CheckLine(line, items, accounts).Ok?
    requires Present(PaymentItem(items, org, CheckLine(line, items, accounts).value.account))
    ensures var c := CheckLine(line, items, accounts).value;
      var pay := PaymentItem(items, org, c.account).value;
      var s := Step(st, idx, line, org, items, accounts);
      var rows := DerivedSet(s.ledger, st.nextId);
      && s.cashBooks == st.cashBooks + [LineCashBook(st.nextId, org, c)]
      && WithoutDerived(s.ledger, st.nextId) == WithoutDerived(st.ledger, st.nextId)
      && rows == LinePostings(org, c, pay, items, st.nextId)
      && (c.amount == 0 <==> rows == [])
      && (c.amount != 0 ==>
            && |rows| == 1 && rows[0].sourceType == "batch_entry"
            && rows[0].debitAmount == Abs(c.amount) && rows[0].creditAmount == Abs(c.amount)
            && (c.amount > 0 ==> rows[0].debitItem == pay && rows[0].creditItem == c.itemId)
            && (c.amount < 0 ==> rows[0].debitItem == c.itemId && rows[0].creditItem == pay))
  {
    var c := CheckLine(line, items, accounts).value;
    var pay := PaymentItem(items, org, c.account).value;
    var rows := LinePostings(org, c, pay, items, st.nextId);
    ReplaceDerivedExact(st.ledger, st.nextId, rows);
    if c.amount != 0 {
      SinglePosting(org, FormatDate(c.date), c.amount, 0, pay, c.itemId, TaxItemId(items, org), c.rawRemarks, st.nextId);
    }
  }

  /** Every line is accounted for: it either created a cash book or produced
      exactly one error, and only lines that created a cash book can post. */
  lemma {:induction false} RunAccountsForEveryLine(st: BatchState, lines: seq<BatchLine>, org: int,
                                                   items: seq<AccountItem>, accounts: seq<Account>)
    ensures var s := Run(st, lines, org, items, accounts);
      && (s.count - st.count) + (|s.errors| - |st.errors|) == |lines|
      && 0 <= s.created - st.created <= s.count - st.count
  {
    if lines != [] {
      RunAccountsForEveryLine(st, lines[..|lines| - 1], org, items, accounts);
    }
  }

  lemma StepKeepsBalanced(st: BatchState, idx: int, line: BatchLine, org: int,
                          items: seq<AccountItem>, accounts: seq<Account>)
    requires AllBalanced(st.ledger)
    ensures AllBalanced(Step(st, idx, line, org, items, accounts).ledger)
  {
    match CheckLine(line, items, accounts)
    case Err(_) =>
    case Ok(c) =>
      var pay := PaymentItem(items, org, c.account);
      if Present(pay) {
        ReplaceDerivedBalanced(st.ledger, st.nextId, LinePostings(org, c, pay.value, items, st.nextId));
      }
  }

  /** Posting a batch keeps every ledger row balanced. */
  lemma {:induction false} RunKeepsBalanced(st: BatchState, lines: seq<BatchLine>, org: int,
                                            items: seq<AccountItem>, accounts: seq<Account>)
    requires AllBalanced(st.ledger)
    ensures AllBalanced(Run(st, lines, org, items, accounts).ledger)
  {
    if lines != [] {
      var n := |lines| - 1;
      RunKeepsBalanced(st, lines[..n], org, items, accounts);
      StepKeepsBalanced(Run(st, lines[..n], org, items, accounts), n, lines[n], org, items, accounts);
    }
  }

  /** Cash-book ids stay below the id counter, so each new cash book has an id
      no earlier cash book has. */
  lemma {:induction false} RunKeepsIdsFresh(st: BatchState, lines: seq<BatchLine>, org: int,
                                            items: seq<AccountItem>, accounts: seq<Account>)
    requires 1 <= st.nextId
    requires forall i :: 0 <= i < |st.cashBooks| ==> 1 <= st.cashBooks[i].id < st.nextId
    ensures var s := Run(st, lines, org, items, accounts);
      && st.nextId <= s.nextId
      && forall i :: 0 <= i < |s.cashBooks| ==> 1 <= s.cashBooks[i].id < s.nextId
  {
    if lines != [] {
      RunKeepsIdsFresh(st, lines[..|lines| - 1], org, items, accounts);
    }
  }

  /** The organisation a request works for: the session's, or 1 without one. */
  function BatchOrg(currentOrg: Option<int>): int
  {
    if Present(currentOrg) then currentOrg.value else 1
  }

  datatype BatchResponse =
    | BadRequest
    | NothingPosted(errors: seq<RowFailure>)
    | Committed(created: int, cashBookCount: int, errors: seq<RowFailure>)

  /** One line of the batch, on the session's working copy of the tables: the
      line is checked, then its cash book is added and its derived rows
      regenerated, or its error recorded. */
  method PostLine(st: BatchState, i: int, line: BatchLine, org: int,
                  items: seq<AccountItem>, accounts: seq<Account>) returns (st': BatchState)
    ensures st' == Step(st, i, line, org, items, accounts)
  {
    var ledger, books, nextId, created, count, errors :=
      st.ledger, st.cashBooks, st.nextId, st.created, st.count, st.errors;
    match CheckLine(line, items, accounts) {
    case Err(e) =>
      errors := errors + [RowFailure(i + 1, e)];
    case Ok(c) =>
      var id := nextId;
      // db.add(cash_book); db.flush()
      books := books + [LineCashBook(id, org, c)];
      nextId := nextId + 1;
      count := count + 1;
      var pay := PaymentItem(items, org, c.account);
      if !Present(pay) {
        // db.delete(cash_book)
        SnocFront(st.cashBooks, LineCashBook(id, org, c));
        books := books[..|books| - 1];
        count := count - 1;
        errors := errors + [RowFailure(i + 1, NoPaymentItem)];
      } else {
        ledger := WithoutDerived(ledger, id);
        var rows := LinePostings(org, c, pay.value, items, id);
        ledger := ledger + rows;
        if rows != [] {
          created := created + 1;
        }
      }
    }
    st' := BatchState(ledger, books, nextId, created, count, errors);
  }

  /** The handler's loop over the lines. */
  method PostLines(init: BatchState, lines: seq<BatchLine>, org: int,
                   items: seq<AccountItem>, accounts: seq<Account>) returns (fin: BatchState)
    ensures fin == Run(init, lines, org, items, accounts)
  {
    fin := init;
    var i := 0;
    while i < |lines|
      invariant 0 <= i <= |lines|
      invariant fin == Run(init, lines[..i], org, items, accounts)
    {
      TakeSnoc(lines, i);
      fin := PostLine(fin, i, lines[i], org, items, accounts);
      i := i + 1;
    }
    assert lines[..|lines|] == lines;
  }

  /** POST /api/cash-books/batch. Each line is checked and, when accepted,
      creates a cash book and regenerates its derived ledger rows. The batch
      commits only when at least one line posted; otherwise it rolls back. */
  method BatchCreate(db: Books, lines: seq<BatchLine>, currentOrg: Option<int>) returns (resp: BatchResponse)
    requires db.Valid()
    modifies db
    ensures db.Valid()
    ensures db.items == old(db.items) && db.accounts == old(db.accounts)
    ensures db.vouchers == old(db.vouchers) && db.openingBalances == old(db.openingBalances)
    ensures db.nextVoucherId == old(db.nextVoucherId)
    ensures lines == [] ==> resp == BadRequest
    ensures var fin := Run(BatchState(old(db.ledger), old(db.cashBooks), old(db.nextCashBookId), 0, 0, []),
                           lines, BatchOrg(currentOrg), old(db.items), old(db.accounts));
      && (lines != [] && fin.created == 0 ==> resp == NothingPosted(fin.errors))
      && (lines != [] && fin.created > 0 ==> resp == Committed(fin.created, fin.count, fin.errors))
      && (resp.Committed? ==>
            db.ledger == fin.ledger && db.cashBooks == fin.cashBooks && db.nextCashBookId == fin.nextId)
      && (!resp.Committed? ==>
            db.ledger == old(db.ledger) && db.cashBooks == old(db.cashBooks)
            && db.nextCashBookId == old(db.nextCashBookId))
  {
    if lines == [] {
      return BadRequest;
    }
    var org := BatchOrg(currentOrg);
    var init := BatchState(db.ledger, db.cashBooks, db.nextCashBookId, 0, 0, []);
    var fin := PostLines(init, lines, org, db.items, db.accounts);
    RunKeepsIdsFresh(init, lines, org, db.items, db.accounts);
    RunAccountsForEveryLine(init, lines, org, db.items, db.accounts);
    if fin.created == 0 {
      return NothingPosted(fin.errors);
    }
    db.ledger := fin.ledger;
    db.cashBooks := fin.cashBooks;
    db.nextCashBookId := fin.nextId;
    return Committed(fin.created, fin.count, fin.errors);
  }

  /** The batch never splits tax: every row it derives is a single
      'batch_entry' row. */
  lemma BatchNeverSplits(org: int, c: Checked, accountItem: int, items: seq<AccountItem>, id: int)
    requires ValidDate(c.date)
    ensures var r := LinePostings(org, c, accountItem, items, id);
      forall i :: 0 <= i < |r| ==> r[i].sourceType == "batch_entry"
  {
  }

  // ---------------------------------------------------------------------------
  // The single-line form

  /** The form fields of POST /cash-books/new, before strip(). */
  datatype CashBookForm = CashBookForm(
    date: string, itemId: Option<int>, taxCategory: Option<int>, counterparty: string,
    itemName: string, paymentAccount: string, remarks: string, amountWithTax: Option<int>,
    amountWithoutTax: Option<int>, taxAmount: Option<int>)

  /** The payment account as the handler means to find it: the organisation's
      account with that account name, or the organisation's first account when
      no name is given. */
  function PaymentAccount(accounts: seq<Account>, org: Option<int>, name: string): (r: Option<Account>)
    ensures r.Some? ==> r.value in accounts && Some(r.value.orgId) == org
    ensures name != "" && r.Some? ==> r.value.name == name
    ensures name != "" && org.Some? && r.None? ==>
      forall i :: 0 <= i < |accounts| ==> !(accounts[i].orgId == org.value && accounts[i].name == name)
  {
    if accounts == [] || org.None? then None
    else if (accounts[0].orgId == org.value) && (name == "" || accounts[0].name == name) then Some(accounts[0])
    else PaymentAccount(accounts[1..], org, name)
  }

  /** Account a is one the payment-account lookup accepts. */
  predicate PaysFor(a: Account, org: int, name: string)
  {
    a.orgId == org && (name == "" || a.name == name)
  }

  /** `.first()` of the lookup: the result is the first account the filter
      accepts, and there is none exactly when no account is accepted. */
  lemma {:induction false} PaymentAccountFirst(accounts: seq<Account>, org: Option<int>, name: string)
    ensures org.None? ==> PaymentAccount(accounts, org, name).None?
    ensures org.Some? ==>
      (PaymentAccount(accounts, org, name).None? <==> forall i :: 0 <= i < |accounts| ==> !PaysFor(accounts[i], org.value, name))
    ensures PaymentAccount(accounts, org, name).Some? ==>
      exists i :: 0 <= i < |accounts| && accounts[i] == PaymentAccount(accounts, org, name).value
        && forall j :: 0 <= j < i ==> !PaysFor(accounts[j], org.value, name)
  {
    if accounts != [] && org.Some? && !PaysFor(accounts[0], org.value, name) {
      var rest := accounts[1..];
      PaymentAccountFirst(rest, org, name);
      if PaymentAccount(accounts, org, name).Some? {
        var i :| 0 <= i < |rest| && rest[i] == PaymentAccount(rest, org, name).value
          && forall j :: 0 <= j < i ==> !PaysFor(rest[j], org.value, name);
        assert accounts[i + 1] == rest[i];
        forall j | 0 <= j < i + 1
          ensures !PaysFor(accounts[j], org.value, name)
        {
          if j > 0 { assert accounts[j] == rest[j - 1]; }
        }
      } else {
        forall i | 0 <= i < |accounts|
          ensures !PaysFor(accounts[i], org.value, name)
        {
          if i > 0 { assert accounts[i] == rest[i - 1]; }
        }
      }
    }
  }

  datatype LookupError = NoSuchAttribute

  /** The lookup as written: a non-empty payment account name filters on
      `Account.name`, an attribute the Account model does not have, so the
      query raises instead of finding the account. */
  function PaymentAccountAsWritten(accounts: seq<Account>, org: Option<int>, name: string): (r: Result<Option<Account>, LookupError>)
    ensures name != "" <==> r.Err?
    ensures name == "" ==> r == Ok(PaymentAccount(accounts, org, name))
  {
    if name != "" then Err(NoSuchAttribute) else Ok(PaymentAccount(accounts, org, name))
  }

  /** A form line naming its payment account never reaches the posting step as
      written, although the account exists and has an account item; the
      intended lookup finds it. */
  lemma NamedPaymentAccountNeverPosts()
    ensures var accounts := [Account(7, 1, "本店口座", "bank", Some(12))];
      && PaymentAccountAsWritten(accounts, Some(1), "本店口座").Err?
      && PaymentAccount(accounts, Some(1), "本店口座") == Some(accounts[0])
  {
  }

  /** The account item the form line posts against, if any. */
  function FormPaymentItem(items: seq<AccountItem>, accounts: seq<Account>, org: Option<int>, name: string): Option<int>
  {
    match PaymentAccount(accounts, org, name)
    case None => None
    case Some(account) => if org.Some? then PaymentItem(items, org.value, account) else None
  }

  /** The single row a form line posts: both sides carry |amount|; the tax
      category sits on the credit side of a deposit and on the debit side of a
      withdrawal. */
  function FormPosting(org: Option<int>, date: string, amount: int, accountItem: int, txnItem: int,
                       taxCategory: Option<int>, summary: string, remarks: string, id: int): (r: LedgerRow)
    ensures Balanced(r) && r.debitAmount == Abs(amount)
    ensures r.sourceType == "cash_book" && r.sourceId == Some(id)
    ensures amount >= 0 ==> r.debitItem == accountItem && r.creditItem == txnItem
                            && r.creditTax == taxCategory && r.debitTax.None?
    ensures amount < 0 ==> r.debitItem == txnItem && r.creditItem == accountItem
                           && r.debitTax == taxCategory && r.creditTax.None?
  {
    LedgerRow(org, date,
              if amount >= 0 then accountItem else txnItem, Abs(amount),
              if amount < 0 then taxCategory else None,
              if amount >= 0 then txnItem else accountItem, Abs(amount),
              if amount >= 0 then taxCategory else None,
              summary, remarks, NoDims, "cash_book", Some(id))
  }

  datatype CreateError = NoDate | NoItem | BadFormDate | StoreRejected

  datatype CreateOutcome =
    | CreateRejected(reason: CreateError)
    | CreatedWithoutPosting(id: int)
    | CreatedAndPosted(id: int)

  /** The cash book a form line stores. The handler does not set the
      organisation, so the column's server default 1 applies. */
  function FormCashBook(id: int, date: Date, f: CashBookForm): CashBook
    requires ValidDate(date) && f.itemId.Some? && f.amountWithTax.Some?
  {
    CashBook(id, 1, FormatDate(date), f.itemId.value, f.taxCategory, Strip(f.counterparty),
             Strip(f.itemName), Strip(f.paymentAccount), Strip(f.remarks),
             f.amountWithTax.value, f.amountWithoutTax, f.taxAmount)
  }

  /** The form checks, in the handler's order: a date and an account item are
      required, the date must parse, and amount_with_tax is NOT NULL, so a
      missing amount makes the first commit fail. */
  function CheckForm(f: CashBookForm): (r: Result<Date, CreateError>)
    ensures r.Ok? <==> Strip(f.date) != "" && Present(f.itemId) && ParseDate(Strip(f.date)).Some?
                       && f.amountWithTax.Some?
    ensures r.Ok? ==> r == Ok(ParseDate(Strip(f.date)).value) && ValidDate(r.value)
    ensures Strip(f.date) == "" ==> r == Err(NoDate)
  {
    if Strip(f.date) == "" then Err(NoDate)
    else if !Present(f.itemId) then Err(NoItem)
    else match ParseDate(Strip(f.date))
      case None => Err(BadFormDate)
      case Some(d) => if f.amountWithTax.None? then Err(StoreRejected) else Ok(d)
  }

  /** The summary of the posted row: counterparty and item name joined by a space. */
  function FormSummary(f: CashBookForm): string
  {
    Strip(Strip(f.counterparty) + " " + Strip(f.itemName))
  }

  /** The ledger rows a stored form line posts: one row when its payment
      account resolves to an account item, none otherwise. */
  function FormRows(items: seq<AccountItem>, accounts: seq<Account>, currentOrg: Option<int>,
                    f: CashBookForm, id: int): (r: seq<LedgerRow>)
    requires f.itemId.Some? && f.amountWithTax.Some?
    ensures var pay := FormPaymentItem(items, accounts, currentOrg, Strip(f.paymentAccount));
      && (r == [] <==> !Present(pay))
      && (r != [] ==> r == [FormPosting(currentOrg, Strip(f.date), f.amountWithTax.value, pay.value,
                                        f.itemId.value, f.taxCategory, FormSummary(f), Strip(f.remarks), id)])
  {
    var pay := FormPaymentItem(items, accounts, currentOrg, Strip(f.paymentAccount));
    if !Present(pay) then []
    else [FormPosting(currentOrg, Strip(f.date), f.amountWithTax.value, pay.value,
                      f.itemId.value, f.taxCategory, FormSummary(f), Strip(f.remarks), id)]
  }

  /** POST /cash-books/new: the cash book is committed first; then, when the
      payment account resolves to an account item, one ledger row is posted.
      The payment account is found with the corrected lookup PaymentAccount
      (through FormPaymentItem); as written, a named payment account never
      posts (see NamedPaymentAccountNeverPosts). */
  method CashBookCreate(db: Books, f: CashBookForm, currentOrg: Option<int>) returns (out: CreateOutcome)
    requires db.Valid()
    modifies db
    ensures db.Valid()
    ensures db.items == old(db.items) && db.accounts == old(db.accounts)
    ensures db.vouchers == old(db.vouchers) && db.openingBalances == old(db.openingBalances)
    ensures db.nextVoucherId == old(db.nextVoucherId)
    ensures out.CreateRejected? <==> CheckForm(f).Err?
    ensures out.CreateRejected? ==>
      out.reason == CheckForm(f).error && db.ledger == old(db.ledger) && db.cashBooks == old(db.cashBooks)
      && db.nextCashBookId == old(db.nextCashBookId)
    ensures !out.CreateRejected? ==>
      && CheckForm(f).Ok? && f.itemId.Some? && f.amountWithTax.Some?
      && out.id == old(db.nextCashBookId)
      && db.cashBooks == old(db.cashBooks) + [FormCashBook(out.id, CheckForm(f).value, f)]
      && db.nextCashBookId == old(db.nextCashBookId) + 1
      && db.ledger == old(db.ledger) + FormRows(old(db.items), old(db.accounts), currentOrg, f, out.id)
      && (out.CreatedAndPosted? <==> FormRows(old(db.items), old(db.accounts), currentOrg, f, out.id) != [])
  {
    var checked := CheckForm(f);
    if checked.Err? {
      return CreateRejected(checked.error);
    }
    var id := db.AddCashBook(FormCashBook(db.nextCashBookId, checked.value, f));
    var rows := FormRows(db.items, db.accounts, currentOrg, f, id);
    db.SetLedger(db.ledger + rows);
    if rows == [] {
      return CreatedWithoutPosting(id);
    }
    return CreatedAndPosted(id);
  }

  // ---------------------------------------------------------------------------
  // Deleting a line

  /** POST /api/cash-books/<id>/delete: removes the cash book and its whole
      batch-derived set. Rows the single-line form posted (source type
      'cash_book') are not part of that set and stay in the ledger. */
  method CashBookDelete(db: Books, id: int) returns (found: bool)
    requires db.Valid()
    modifies db
    ensures db.Valid()
    ensures db.items == old(db.items) && db.accounts == old(db.accounts)
    ensures db.vouchers == old(db.vouchers) && db.openingBalances == old(db.openingBalances)
    ensures db.nextCashBookId == old(db.nextCashBookId) && db.nextVoucherId == old(db.nextVoucherId)
    ensures found <==> CashBookIndex(old(db.cashBooks), id).Some?
    ensures !found ==> db.ledger == old(db.ledger) && db.cashBooks == old(db.cashBooks)
    ensures found ==>
      && db.ledger == WithoutDerived(old(db.ledger), id)
      && DerivedSet(db.ledger, id) == []
      && db.cashBooks == RemoveAt(old(db.cashBooks), CashBookIndex(old(db.cashBooks), id).value)
      && forall i :: 0 <= i < |old(db.ledger)| && old(db.ledger)[i].sourceType == "cash_book" ==> old(db.ledger)[i] in db.ledger
  {
    var k := CashBookIndex(db.cashBooks, id);
    if k.None? {
      return false;
    }
    WithoutDerivedIdempotent(db.ledger, id);
    WithoutDerivedMembers(db.ledger, id);
    db.ledger := WithoutDerived(db.ledger, id);
    db.cashBooks := RemoveAt(db.cashBooks, k.value);
    return true;
  }

  // ---------------------------------------------------------------------------
  // The update endpoints

  datatype Amounts = Amounts(withTax: int, withoutTax: int, tax: int)

  datatype UpdateStatus = Updated | NotFound | Invalid | ServerError

  /** PUT /api/cash-books/<id>: amount_with_tax as in the batch; the tax amount
      defaults to 0 when absent; amount_without_tax = |amount| - |tax|. */
  function UpdateAmounts(deposit: Json, withdrawal: Json, taxAmount: Json): (r: Result<Amounts, UpdateStatus>)
    ensures !Truthy(deposit) && !Truthy(withdrawal) ==> r == Err(Invalid)
    ensures r.Ok? ==>
      && SignedAmount(deposit, withdrawal) == Ok(r.value.withTax)
      && (taxAmount.Absent? ==> r.value.tax == 0)
      && (!taxAmount.Absent? ==> IntOf(taxAmount) == Some(r.value.tax))
      && r.value.withoutTax == Abs(r.value.withTax) - Abs(r.value.tax)
    ensures r.Ok? <==> SignedAmount(deposit, withdrawal).Ok? && (taxAmount.Absent? || IntOf(taxAmount).Some?)
    ensures SignedAmount(deposit, withdrawal) == Err(BadAmount) ==> r == Err(ServerError)
  {
    match SignedAmount(deposit, withdrawal)
    case Err(e) => if e == MissingAmount then Err(Invalid) else Err(ServerError)
    case Ok(amount) =>
      var tax := if taxAmount.Absent? then Some(0) else IntOf(taxAmount);
      if tax.None? then Err(ServerError)
      else Ok(Amounts(amount, Abs(amount) - Abs(tax.value), tax.value))
  }

  datatype UpdateRequest = UpdateRequest(
    deposit: Json, withdrawal: Json, taxAmount: Json, date: Json, itemId: Json,
    taxCategory: Json, counterparty: Json, itemName: Json, remarks: Json)

  /** data.get(key, '').strip(): the stripped text, "" when absent; None where
      .strip() raises (JSON null, a number). */
  function StrippedOf(v: Json): (r: Option<string>)
    ensures r.Some? <==> v.Absent? || v.JStr?
    ensures v.Absent? ==> r == Some("")
    ensures v.JStr? ==> r == Some(Strip(v.s))
  {
    match v
    case Absent => Some("")
    case JStr(s) => Some(Strip(s))
    case _ => None
  }

  /** Every conversion of the update handler succeeds, in its order: amounts,
      date, tax category name, account item id, then the three texts. */
  predicate UpdateAccepted(req: UpdateRequest)
  {
    && UpdateAmounts(req.deposit, req.withdrawal, req.taxAmount).Ok?
    && DateOf(req.date).Some?
    && StrippedOf(req.taxCategory).Some?
    && IntOf(req.itemId).Some?
    && StrippedOf(req.counterparty).Some?
    && StrippedOf(req.itemName).Some?
    && StrippedOf(req.remarks).Some?
  }

  /** PUT /api/cash-books/<id>: rewrites the cash book's date, account item,
      texts and amounts. Its ledger rows are not regenerated. */
  method UpdateCashBook(db: Books, id: int, req: UpdateRequest) returns (status: UpdateStatus)
    requires db.Valid()
    modifies db
    ensures db.Valid()
    ensures db.ledger == old(db.ledger) && db.items == old(db.items) && db.accounts == old(db.accounts)
    ensures db.vouchers == old(db.vouchers) && db.openingBalances == old(db.openingBalances)
    ensures db.nextCashBookId == old(db.nextCashBookId) && db.nextVoucherId == old(db.nextVoucherId)
    ensures status != Updated ==> db.cashBooks == old(db.cashBooks)
    ensures status == NotFound <==> CashBookIndex(old(db.cashBooks), id).None?
    ensures CashBookIndex(old(db.cashBooks), id).Some? ==> (status == Updated <==> UpdateAccepted(req))
    ensures CashBookIndex(old(db.cashBooks), id).Some?
            && UpdateAmounts(req.deposit, req.withdrawal, req.taxAmount).Err? ==>
      status == UpdateAmounts(req.deposit, req.withdrawal, req.taxAmount).error
    ensures CashBookIndex(old(db.cashBooks), id).Some?
            && UpdateAmounts(req.deposit, req.withdrawal, req.taxAmount).Ok? && DateOf(req.date).None? ==>
      status == (if req.date.JStr? then Invalid else ServerError)
    ensures CashBookIndex(old(db.cashBooks), id).Some?
            && UpdateAmounts(req.deposit, req.withdrawal, req.taxAmount).Ok? && DateOf(req.date).Some?
            && !UpdateAccepted(req) ==>
      status == ServerError
    ensures status == Updated ==>
      var k := CashBookIndex(old(db.cashBooks), id).value;
      var a := UpdateAmounts(req.deposit, req.withdrawal, req.taxAmount).value;
      db.cashBooks == old(db.cashBooks)[k := old(db.cashBooks)[k].(
           date := FormatDate(DateOf(req.date).value), itemId := IntOf(req.itemId).value,
           counterparty := StrippedOf(req.counterparty).value,
           itemName := StrippedOf(req.itemName).value,
           remarks := StrippedOf(req.remarks).value,
           amountWithTax := a.withTax, amountWithoutTax := Some(a.withoutTax), taxAmount := Some(a.tax))]
  {
    var k := CashBookIndex(db.cashBooks, id);
    if k.None? {
      return NotFound;
    }
    var amounts := UpdateAmounts(req.deposit, req.withdrawal, req.taxAmount);
    if amounts.Err? {
      return amounts.error;
    }
    var date := DateOf(req.date);
    if date.None? {
      // strptime raises ValueError on a malformed string, TypeError otherwise
      return if req.date.JStr? then Invalid else ServerError;
    }
    // every later failure is an exception caught by the handler's outer except
    var taxCategory := StrippedOf(req.taxCategory);
    if taxCategory.None? {
      return ServerError;
    }
    var itemId := IntOf(req.itemId);
    if itemId.None? {
      return ServerError;
    }
    var counterparty := StrippedOf(req.counterparty);
    var itemName := StrippedOf(req.itemName);
    var remarks := StrippedOf(req.remarks);
    if counterparty.None? || itemName.None? || remarks.None? {
      return ServerError;
    }
    var a := amounts.value;
    var old_book := db.cashBooks[k.value];
    db.cashBooks := db.cashBooks[k.value := old_book.(
      date := FormatDate(date.value), itemId := itemId.value,
      counterparty := counterparty.value, itemName := itemName.value, remarks := remarks.value,
      amountWithTax := a.withTax, amountWithoutTax := Some(a.withoutTax), taxAmount := Some(a.tax))];
    return Updated;
  }

  datatype SideError = BothSides | NeitherSide | NegativeSide

  /** POST /cash-books/<id>/update as written: refuses both sides positive and
      both sides zero, then takes the debit when it is positive and the
      negated credit otherwise. */
  function BatchUpdateAmountAsWritten(debit: int, credit: int): (r: Result<int, SideError>)
    ensures r == Err(BothSides) <==> debit > 0 && credit > 0
    ensures r == Err(NeitherSide) <==> debit == 0 && credit == 0
    ensures r.Ok? ==> r.value == (if debit > 0 then debit else -credit)
  {
    if debit > 0 && credit > 0 then Err(BothSides)
    else if debit == 0 && credit == 0 then Err(NeitherSide)
    else Ok(if debit > 0 then debit else -credit)
  }

  /** A negative input passes the two guards: a negative debit with no credit
      stores an amount of 0, and a negative credit is stored as a deposit. */
  lemma BatchUpdateAcceptsNegative()
    ensures BatchUpdateAmountAsWritten(-5, 0) == Ok(0)
    ensures BatchUpdateAmountAsWritten(0, -5) == Ok(5)
  {
  }

  /** The update amount rule with negative inputs refused: an accepted request
      has exactly one positive side, and the stored amount is that side, signed
      by its direction. */
  function BatchUpdateAmount(debit: int, credit: int): (r: Result<int, SideError>)
    ensures r.Ok? <==> (debit > 0 && credit == 0) || (debit == 0 && credit > 0)
    ensures r.Ok? ==> r.value != 0 && (r.value > 0 <==> debit > 0) && Abs(r.value) == debit + credit
    ensures r.Ok? ==> BatchUpdateAmountAsWritten(debit, credit) == r
  {
    if debit < 0 || credit < 0 then Err(NegativeSide)
    else BatchUpdateAmountAsWritten(debit, credit)
  }
}
