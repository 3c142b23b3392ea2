/** The tables the posting handlers read and write, held as one mutable
    store: a handler that commits leaves its changes in the fields, one that
    rolls back leaves them as they were. */
module Store {
  import opened Common
  import opened Catalog
  import opened Ledger

  /** One row of cash_books (出納帳). amountWithTax is signed: deposits are
      positive, withdrawals negative. */
  datatype CashBook = CashBook(
    id: int,
    orgId: int,
    date: string,
    itemId: int,
    taxCategory: Option<int>,
    counterparty: string,
    itemName: string,
    paymentAccount: string,
    remarks: string,
    amountWithTax: int,
    amountWithoutTax: Option<int>,
    taxAmount: Option<int>)

  /** One row of journal_entries (振替伝票): a manual voucher. */
  datatype Voucher = Voucher(
    id: int,
    orgId: int,
    date: string,
    debitItem: int,
    debitAmount: int,
    debitTax: Option<int>,
    creditItem: int,
    creditAmount: int,
    creditTax: Option<int>,
    summary: string,
    remarks: string)

  /** One row of opening_balances (期首残高) for an account item in a period. */
  datatype OpeningBalance = OpeningBalance(
    orgId: int,
    periodId: int,
    itemId: int,
    debit: int,
    credit: int)

  /** Index of the first row with the given id, as `.filter(id == ...).first()`. */
  function CashBookIndex(books: seq<CashBook>, id: int): (r: Option<nat>)
    ensures r.Some? ==> (r.value < |books| && books[r.value].id == id
                         && forall j :: 0 <= j < r.value ==> books[j].id != id)
    ensures r.None? ==> forall j :: 0 <= j < |books| ==> books[j].id != id
  {
    if books == [] then None
    else if books[0].id == id then Some(0)
    else match CashBookIndex(books[1..], id)
      case None => None
      case Some(k) => Some(k + 1)
  }

  function VoucherIndex(vouchers: seq<Voucher>, id: int): (r: Option<nat>)
    ensures r.Some? ==> (r.value < |vouchers| && vouchers[r.value].id == id
                         && forall j :: 0 <= j < r.value ==> vouchers[j].id != id)
    ensures r.None? ==> forall j :: 0 <= j < |vouchers| ==> vouchers[j].id != id
  {
    if vouchers == [] then None
    else if vouchers[0].id == id then Some(0)
    else match VoucherIndex(vouchers[1..], id)
      case None => None
      case Some(k) => Some(k + 1)
  }

  /** s without its element at index k. */
  function RemoveAt<T>(s: seq<T>, k: nat): (r: seq<T>)
    requires k < |s|
    ensures |r| == |s| - 1
    ensures forall j :: 0 <= j < k ==> r[j] == s[j]
    ensures forall j :: k <= j < |r| ==> r[j] == s[j + 1]
  {
    s[..k] + s[k + 1..]
  }

  /** The database of one installation. Ids are handed out from counters, so a
      new cash book or voucher never reuses an id present in its table. */
  class Books {
    var items: seq<AccountItem>
    var accounts: seq<Account>
    var ledger: seq<LedgerRow>
    var cashBooks: seq<CashBook>
    var vouchers: seq<Voucher>
    var openingBalances: seq<OpeningBalance>
    var nextCashBookId: int
    var nextVoucherId: int

    ghost predicate Valid()
      reads this
    {
      && 1 <= nextCashBookId && 1 <= nextVoucherId
      && (forall i :: 0 <= i < |cashBooks| ==> 1 <= cashBooks[i].id < nextCashBookId)
      && (forall i :: 0 <= i < |vouchers| ==> 1 <= vouchers[i].id < nextVoucherId)
    }

    constructor(items: seq<AccountItem>, accounts: seq<Account>)
      ensures Valid()
      ensures this.items == items && this.accounts == accounts
      ensures ledger == [] && cashBooks == [] && vouchers == [] && openingBalances == []
    {
      this.items := items;
      this.accounts := accounts;
      ledger := [];
      cashBooks := [];
      vouchers := [];
      openingBalances := [];
      nextCashBookId := 1;
      nextVoucherId := 1;
    }

    /** db.add(cash_book); db.flush(): the new row takes the next id. */
    method AddCashBook(book: CashBook) returns (id: int)
      requires Valid() && book.id == nextCashBookId
      modifies this
      ensures Valid()
      ensures id == old(nextCashBookId) && nextCashBookId == id + 1
      ensures cashBooks == old(cashBooks) + [book]
      ensures ledger == old(ledger) && items == old(items) && accounts == old(accounts)
      ensures vouchers == old(vouchers) && openingBalances == old(openingBalances)
      ensures nextVoucherId == old(nextVoucherId)
    {
      id := nextCashBookId;
      cashBooks := cashBooks + [book];
      nextCashBookId := id + 1;
    }

    /** db.add(entry): the new voucher takes the next id. */
    method AddVoucher(v: Voucher) returns (id: int)
      requires Valid() && v.id == nextVoucherId
      modifies this
      ensures Valid()
      ensures id == old(nextVoucherId) && nextVoucherId == id + 1
      ensures vouchers == old(vouchers) + [v]
      ensures ledger == old(ledger) && items == old(items) && accounts == old(accounts)
      ensures cashBooks == old(cashBooks) && openingBalances == old(openingBalances)
      ensures nextCashBookId == old(nextCashBookId)
    {
      id := nextVoucherId;
      vouchers := vouchers + [v];
      nextVoucherId := id + 1;
    }

    /** Writes voucher k back with new field values; its id stays. */
    method ReplaceVoucher(k: nat, v: Voucher)
      requires Valid() && k < |vouchers| && v.id == vouchers[k].id
      modifies this
      ensures Valid()
      ensures vouchers == old(vouchers)[k := v]
      ensures ledger == old(ledger) && items == old(items) && accounts == old(accounts)
      ensures cashBooks == old(cashBooks) && openingBalances == old(openingBalances)
      ensures nextCashBookId == old(nextCashBookId) && nextVoucherId == old(nextVoucherId)
    {
      vouchers := vouchers[k := v];
    }

    /** Replaces the opening balances; no other table changes. */
    method SetOpeningBalances(rows: seq<OpeningBalance>)
      requires Valid()
      modifies this
      ensures Valid()
      ensures openingBalances == rows
      ensures items == old(items) && accounts == old(accounts) && vouchers == old(vouchers)
      ensures cashBooks == old(cashBooks) && ledger == old(ledger)
      ensures nextCashBookId == old(nextCashBookId) && nextVoucherId == old(nextVoucherId)
    {
      openingBalances := rows;
    }

    /** Replaces the general ledger; no other table changes. */
    method SetLedger(rows: seq<LedgerRow>)
      requires Valid()
      modifies this
      ensures Valid()
      ensures ledger == rows
      ensures items == old(items) && accounts == old(accounts) && vouchers == old(vouchers)
      ensures cashBooks == old(cashBooks) && openingBalances == old(openingBalances)
      ensures nextCashBookId == old(nextCashBookId) && nextVoucherId == old(nextVoucherId)
    {
      ledger := rows;
    }
  }
}
