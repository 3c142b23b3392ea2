/** Journal vouchers (振替伝票): validation of the voucher form, resolution of
    'account_<id>' references to account items, and the mirroring of each
    voucher into one general-ledger row with source type 'journal_entry'. */
module JournalEntries {
  import opened Common
  import opened Text
  import opened Catalog
  import opened Ledger
  import opened Store

  const JournalSource := "journal_entry"
  const AccountPrefix := "account_"

  // ---------------------------------------------------------------------------
  // Account references

  datatype RefError = BadNumber | UnknownAccount

  /** The account-item field of the form: empty means none; 'account_<n>' names
      payment account n and stands for its account item (which may be unset);
      anything else is an account item id. */
  function ResolveRef(accounts: seq<Account>, raw: string): (r: Result<Option<int>, RefError>)
    ensures Strip(raw) == "" ==> r == Ok(None)
    ensures Strip(raw) != "" && !StartsWith(Strip(raw), AccountPrefix) ==>
      r == (match ParseInt(Strip(raw)) case Some(n) => Ok(Some(n)) case None => Err(BadNumber))
    ensures StartsWith(Strip(raw), AccountPrefix) && r.Ok? ==>
      exists i :: 0 <= i < |accounts| && Some(accounts[i].id) == ParseInt(RemoveAll(Strip(raw), AccountPrefix))
                  && r.value == accounts[i].itemId
  {
    var s := Strip(raw);
    if s == "" then Ok(None)
    else if StartsWith(s, AccountPrefix) then
      match ParseInt(RemoveAll(s, AccountPrefix))
      case None => Err(BadNumber)
      case Some(n) =>
        match FindAccount(accounts, n)
        case None => Err(UnknownAccount)
        case Some(a) => Ok(a.itemId)
    else
      match ParseInt(s)
      case Some(n) => Ok(Some(n))
      case None => Err(BadNumber)
  }

  lemma {:induction false} RemoveAllOfDigits(s: string, pat: string)
    requires AllDigits(s) && pat != [] && !IsDigit(pat[0])
    ensures RemoveAll(s, pat) == s
    decreases |s|
  {
    if s != [] {
      RemoveAllOfDigits(s[1..], pat);
      assert s == [s[0]] + s[1..];
    }
  }

  /** The reference the voucher form renders for payment account n resolves to
      that account's account item, and fails when no account n exists. */
  lemma AccountRefResolves(accounts: seq<Account>, n: nat)
    ensures var r := ResolveRef(accounts, AccountPrefix + ShowNat(n));
      && (FindAccount(accounts, n).Some? ==> r == Ok(FindAccount(accounts, n).value.itemId))
      && (FindAccount(accounts, n).None? ==> r == Err(UnknownAccount))
  {
    var s := AccountPrefix + ShowNat(n);
    StripUnchanged(s);
    assert s[..|AccountPrefix|] == AccountPrefix;
    assert s[|AccountPrefix|..] == ShowNat(n);
    RemoveAllOfDigits(ShowNat(n), AccountPrefix);
    assert RemoveAll(s, AccountPrefix) == RemoveAll(ShowNat(n), AccountPrefix);
    ParseShowInt(n);
  }

  /** A plain account item id resolves to itself. */
  lemma ItemRefResolves(accounts: seq<Account>, n: int)
    ensures ResolveRef(accounts, ShowInt(n)) == Ok(Some(n))
  {
    var s := ShowInt(n);
    var digits := if n < 0 then ShowNat(-n) else ShowNat(n);
    assert s == if n < 0 then "-" + digits else digits;
    assert IsDigit(s[|s| - 1]) by {
      assert s[|s| - 1] == digits[|digits| - 1];
    }
    assert s[0] == '-' || IsDigit(s[0]);
    StripUnchanged(s);
    assert !StartsWith(s, AccountPrefix) by {
      if |AccountPrefix| <= |s| {
        assert s[..|AccountPrefix|][0] == s[0];
      }
    }
    ParseShowInt(n);
  }

  // ---------------------------------------------------------------------------
  // The form

  /** The posted fields, after Flask's `type=int` conversion (None when the
      field is missing or not a number). */
  datatype VoucherForm = VoucherForm(
    date: string,
    debitRef: string,
    debitAmount: Option<int>,
    debitTax: Option<int>,
    creditRef: string,
    creditAmount: Option<int>,
    creditTax: Option<int>,
    summary: string,
    remarks: string,
    dims: Dims)

  datatype VoucherError =
    | RefFailed(reason: RefError)
    | MissingDate
    | MissingItem
    | Unbalanced
    | StoreRejected
    | NotFound

  /** `form.get(..., type=int) or None`: a dimension id of 0 counts as none. */
  function NonZero(o: Option<int>): (r: Option<int>)
    ensures r.Some? <==> Present(o)
    ensures r.Some? ==> r == o
  {
    if Present(o) then o else None
  }

  function FormDims(d: Dims): Dims
  {
    Dims(NonZero(d.counterparty), NonZero(d.department), NonZero(d.item), NonZero(d.projectTag), NonZero(d.memoTag))
  }

  /** The resolved account items of a form, debit first. */
  datatype Resolved = Resolved(debitItem: Option<int>, creditItem: Option<int>)

  function ResolveBoth(accounts: seq<Account>, f: VoucherForm): (r: Result<Resolved, VoucherError>)
    ensures r.Ok? <==> ResolveRef(accounts, f.debitRef).Ok? && ResolveRef(accounts, f.creditRef).Ok?
    ensures r.Ok? ==> r.value == Resolved(ResolveRef(accounts, f.debitRef).value, ResolveRef(accounts, f.creditRef).value)
  {
    match ResolveRef(accounts, f.debitRef)
    case Err(e) => Err(RefFailed(e))
    case Ok(d) =>
      match ResolveRef(accounts, f.creditRef)
      case Err(e) => Err(RefFailed(e))
      case Ok(c) => Ok(Resolved(d, c))
  }

  /** The voucher a valid form stores. */
  function FormVoucher(id: int, org: int, f: VoucherForm, debitItem: int, creditItem: int, amount: int): Voucher
  {
    Voucher(id, org, Strip(f.date), debitItem, amount, f.debitTax, creditItem, amount, f.creditTax,
            Strip(f.summary), Strip(f.remarks))
  }

  /** The ledger row mirroring a voucher. */
  function Mirror(v: Voucher, dims: Dims): (r: LedgerRow)
    ensures r.sourceType == JournalSource && r.sourceId == Some(v.id) && r.orgId == Some(v.orgId)
    ensures r.debitItem == v.debitItem && r.creditItem == v.creditItem
    ensures r.debitAmount == v.debitAmount && r.creditAmount == v.creditAmount
    ensures r.debitTax == v.debitTax && r.creditTax == v.creditTax && r.date == v.date
    ensures r.summary == v.summary && r.remarks == v.remarks && r.dims == dims
  {
    LedgerRow(Some(v.orgId), v.date, v.debitItem, v.debitAmount, v.debitTax, v.creditItem, v.creditAmount,
              v.creditTax, v.summary, v.remarks, dims, JournalSource, Some(v.id))
  }

  /** The ledger rows that mirror voucher `id`. */
  function MirrorRows(rows: seq<LedgerRow>, id: int): (r: seq<LedgerRow>)
    ensures forall i :: 0 <= i < |r| ==> r[i].sourceType == JournalSource && r[i].sourceId == Some(id)
  {
    Filter(rows, (x: LedgerRow) => x.sourceType == JournalSource && x.sourceId == Some(id))
  }

  /** The checks of journal_entry_create, in order: the account references
      resolve, a date is given, both account items are given (0 counts as
      missing), the amounts agree; then the NOT NULL columns reject a missing
      amount or organisation. The result is (debit item, credit item, amount, organisation). */
  function CheckCreate(accounts: seq<Account>, f: VoucherForm, org: Option<int>): (r: Result<(int, int, int, int), VoucherError>)
    ensures r.Ok? ==> ResolveBoth(accounts, f).Ok?
    ensures r.Ok? ==> Strip(f.date) != ""
    ensures r.Ok? ==>
      var (d, c, amount, o) := r.value;
      && ResolveBoth(accounts, f).value == Resolved(Some(d), Some(c)) && d != 0 && c != 0
      && f.debitAmount == Some(amount) && f.creditAmount == Some(amount) && org == Some(o)
    ensures f.debitAmount != f.creditAmount && ResolveBoth(accounts, f).Ok? ==> r.Err?
    ensures (ResolveBoth(accounts, f).Ok? && Strip(f.date) != "" && Present(ResolveBoth(accounts, f).value.debitItem)
             && Present(ResolveBoth(accounts, f).value.creditItem) && f.debitAmount != f.creditAmount) ==> r == Err(Unbalanced)
    ensures r.Ok? <==>
      && ResolveBoth(accounts, f).Ok? && Strip(f.date) != ""
      && Present(ResolveBoth(accounts, f).value.debitItem) && Present(ResolveBoth(accounts, f).value.creditItem)
      && f.debitAmount == f.creditAmount && f.debitAmount.Some? && org.Some?
    ensures ResolveBoth(accounts, f).Err? ==> r == Err(ResolveBoth(accounts, f).error)
    ensures ResolveBoth(accounts, f).Ok? && Strip(f.date) == "" ==> r == Err(MissingDate)
    ensures (ResolveBoth(accounts, f).Ok? && Strip(f.date) != ""
             && !(Present(ResolveBoth(accounts, f).value.debitItem) && Present(ResolveBoth(accounts, f).value.creditItem)))
            ==> r == Err(MissingItem)
  {
    match ResolveBoth(accounts, f)
    case Err(e) => Err(e)
    case Ok(res) =>
      if Strip(f.date) == "" then Err(MissingDate)
      else if !Present(res.debitItem) || !Present(res.creditItem) then Err(MissingItem)
      else if f.debitAmount != f.creditAmount then Err(Unbalanced)
      else if f.debitAmount.None? || org.None? then Err(StoreRejected)
      else Ok((res.debitItem.value, res.creditItem.value, f.debitAmount.value, org.value))
  }

  /** POST /journal-entries/new: a valid voucher is stored with the next id and
      mirrored into exactly one new ledger row; an invalid one writes nothing. */
  method JournalCreate(db: Books, f: VoucherForm, currentOrg: Option<int>) returns (out: Result<int, VoucherError>)
    requires db.Valid()
    modifies db
    ensures db.Valid()
    ensures db.items == old(db.items) && db.accounts == old(db.accounts) && db.cashBooks == old(db.cashBooks)
    ensures db.openingBalances == old(db.openingBalances) && db.nextCashBookId == old(db.nextCashBookId)
    ensures out.Err? <==> CheckCreate(old(db.accounts), f, currentOrg).Err?
    ensures out.Err? ==>
      && out.error == CheckCreate(old(db.accounts), f, currentOrg).error
      && db.ledger == old(db.ledger) && db.vouchers == old(db.vouchers) && db.nextVoucherId == old(db.nextVoucherId)
    ensures out.Ok? ==>
      var (d, c, amount, org) := CheckCreate(old(db.accounts), f, currentOrg).value;
      var v := FormVoucher(out.value, org, f, d, c, amount);
      && out.value == old(db.nextVoucherId) && db.nextVoucherId == out.value + 1
      && db.vouchers == old(db.vouchers) + [v]
      && db.ledger == old(db.ledger) + [Mirror(v, FormDims(f.dims))]
      && Balanced(Mirror(v, FormDims(f.dims)))
      && MirrorRows(db.ledger, out.value) == MirrorRows(old(db.ledger), out.value) + [Mirror(v, FormDims(f.dims))]
  {
    var checked := CheckCreate(db.accounts, f, currentOrg);
    if checked.Err? {
      return Err(checked.error);
    }
    var (d, c, amount, org) := checked.value;
    var v := FormVoucher(db.nextVoucherId, org, f, d, c, amount);
    var id := db.AddVoucher(v);
    var row := Mirror(v, FormDims(f.dims));
    FilterSnoc(db.ledger, row, (x: LedgerRow) => x.sourceType == JournalSource && x.sourceId == Some(id));
    db.SetLedger(db.ledger + [row]);
    return Ok(id);
  }

  /** When no ledger row mirrors the new id yet, a created voucher has exactly
      one mirror, with the voucher's accounts and amounts. */
  lemma CreateMirrorsOnce(before: seq<LedgerRow>, v: Voucher, dims: Dims)
    requires MirrorRows(before, v.id) == []
    ensures MirrorRows(before + [Mirror(v, dims)], v.id) == [Mirror(v, dims)]
  {
    FilterSnoc(before, Mirror(v, dims), (x: LedgerRow) => x.sourceType == JournalSource && x.sourceId == Some(v.id));
  }

  // ---------------------------------------------------------------------------
  // Editing

  /** Index of the first ledger row mirroring voucher `id`, as `.first()`. */
  function FirstMirror(rows: seq<LedgerRow>, id: int): (r: Option<nat>)
    ensures r.Some? ==> r.value < |rows| && rows[r.value].sourceType == JournalSource && rows[r.value].sourceId == Some(id)
                        && forall j :: 0 <= j < r.value ==> !(rows[j].sourceType == JournalSource && rows[j].sourceId == Some(id))
    ensures r.None? ==> forall j :: 0 <= j < |rows| ==> !(rows[j].sourceType == JournalSource && rows[j].sourceId == Some(id))
  {
    if rows == [] then None
    else if rows[0].sourceType == JournalSource && rows[0].sourceId == Some(id) then Some(0)
    else match FirstMirror(rows[1..], id)
      case None => None
      case Some(k) => Some(k + 1)
  }

  /** The checks of journal_entry_edit: the same reference resolution, a date,
      and equal amounts. Missing account items are not checked here, but the
      NOT NULL columns reject a missing item or amount at commit. */
  function CheckEdit(accounts: seq<Account>, f: VoucherForm): (r: Result<(int, int, int), VoucherError>)
    ensures r.Ok? ==>
      var (d, c, amount) := r.value;
      && ResolveBoth(accounts, f).Ok? && ResolveBoth(accounts, f).value == Resolved(Some(d), Some(c))
      && Strip(f.date) != "" && f.debitAmount == Some(amount) && f.creditAmount == Some(amount)
    ensures ResolveBoth(accounts, f).Ok? && Strip(f.date) != "" && f.debitAmount != f.creditAmount ==> r == Err(Unbalanced)
    ensures r.Ok? <==>
      && ResolveBoth(accounts, f).Ok? && Strip(f.date) != "" && f.debitAmount == f.creditAmount
      && ResolveBoth(accounts, f).value.debitItem.Some? && ResolveBoth(accounts, f).value.creditItem.Some?
      && f.debitAmount.Some?
    ensures ResolveBoth(accounts, f).Err? ==> r == Err(ResolveBoth(accounts, f).error)
    ensures ResolveBoth(accounts, f).Ok? && Strip(f.date) == "" ==> r == Err(MissingDate)
  {
    match ResolveBoth(accounts, f)
    case Err(e) => Err(e)
    case Ok(res) =>
      if Strip(f.date) == "" then Err(MissingDate)
      else if f.debitAmount != f.creditAmount then Err(Unbalanced)
      else if res.debitItem.None? || res.creditItem.None? || f.debitAmount.None? then Err(StoreRejected)
      else Ok((res.debitItem.value, res.creditItem.value, f.debitAmount.value))
  }

  /** The voucher with the form's fields written over it; id and organisation stay. */
  function EditedVoucher(v: Voucher, f: VoucherForm, debitItem: int, creditItem: int, amount: int): (r: Voucher)
    ensures r.id == v.id && r.orgId == v.orgId
  {
    FormVoucher(v.id, v.orgId, f, debitItem, creditItem, amount)
  }

  /** The mirror row with the form's fields written over it; organisation,
      source type and source id stay. */
  function EditedMirror(row: LedgerRow, f: VoucherForm, debitItem: int, creditItem: int, amount: int): (r: LedgerRow)
    ensures r.orgId == row.orgId && r.sourceType == row.sourceType && r.sourceId == row.sourceId
    ensures Balanced(r) && r.debitItem == debitItem && r.creditItem == creditItem
  {
    row.(date := Strip(f.date), debitItem := debitItem, debitAmount := amount, debitTax := f.debitTax,
         creditItem := creditItem, creditAmount := amount, creditTax := f.creditTax,
         summary := Strip(f.summary), remarks := Strip(f.remarks), dims := FormDims(f.dims))
  }

  /** POST /journal-entries/<id>/edit: overwrites the voucher and its first
      mirrored ledger row field by field; nothing else changes. */
  method JournalEdit(db: Books, id: int, f: VoucherForm) returns (out: Result<(), VoucherError>)
    requires db.Valid()
    modifies db
    ensures db.Valid()
    ensures db.items == old(db.items) && db.accounts == old(db.accounts) && db.cashBooks == old(db.cashBooks)
    ensures db.openingBalances == old(db.openingBalances)
    ensures db.nextCashBookId == old(db.nextCashBookId) && db.nextVoucherId == old(db.nextVoucherId)
    ensures VoucherIndex(old(db.vouchers), id).None? ==> out == Err(NotFound)
    ensures VoucherIndex(old(db.vouchers), id).Some? ==>
      (out.Ok? <==> CheckEdit(old(db.accounts), f).Ok?)
    ensures out.Err? ==> db.vouchers == old(db.vouchers) && db.ledger == old(db.ledger)
    ensures out.Ok? ==>
      && VoucherIndex(old(db.vouchers), id).Some? && CheckEdit(old(db.accounts), f).Ok?
      && var k := VoucherIndex(old(db.vouchers), id).value;
         var (d, c, amount) := CheckEdit(old(db.accounts), f).value;
         && db.vouchers == old(db.vouchers)[k := EditedVoucher(old(db.vouchers)[k], f, d, c, amount)]
         && (FirstMirror(old(db.ledger), id).None? ==> db.ledger == old(db.ledger))
         && (FirstMirror(old(db.ledger), id).Some? ==>
               var j := FirstMirror(old(db.ledger), id).value;
               db.ledger == old(db.ledger)[j := EditedMirror(old(db.ledger)[j], f, d, c, amount)])
  {
    var k := VoucherIndex(db.vouchers, id);
    if k.None? {
      return Err(NotFound);
    }
    var checked := CheckEdit(db.accounts, f);
    if checked.Err? {
      return Err(checked.error);
    }
    var (d, c, amount) := checked.value;
    db.ReplaceVoucher(k.value, EditedVoucher(db.vouchers[k.value], f, d, c, amount));
    var j := FirstMirror(db.ledger, id);
    if j.Some? {
      db.SetLedger(db.ledger[j.value := EditedMirror(db.ledger[j.value], f, d, c, amount)]);
    }
    return Ok(());
  }

  /** Editing keeps the voucher and its first mirror in agreement: both carry
      the same accounts, the same amount on both sides, and the voucher's id. */
  lemma EditKeepsMirrorInStep(v: Voucher, row: LedgerRow, f: VoucherForm, d: int, c: int, amount: int)
    requires row.sourceType == JournalSource && row.sourceId == Some(v.id)
    ensures var v' := EditedVoucher(v, f, d, c, amount);
      var row' := EditedMirror(row, f, d, c, amount);
      && row'.sourceId == Some(v'.id) && row'.sourceType == JournalSource
      && row'.debitItem == v'.debitItem && row'.creditItem == v'.creditItem
      && row'.debitAmount == v'.debitAmount == v'.creditAmount == row'.creditAmount
      && row'.date == v'.date && row'.summary == v'.summary && row'.remarks == v'.remarks
  {
  }

  // ---------------------------------------------------------------------------
  // Deleting and listing

  /** POST /api/journal-entries/<id>/delete: removes the voucher only; its
      mirrored ledger row stays. */
  method JournalDelete(db: Books, id: int) returns (found: bool)
    requires db.Valid()
    modifies db
    ensures db.Valid()
    ensures db.items == old(db.items) && db.accounts == old(db.accounts) && db.cashBooks == old(db.cashBooks)
    ensures db.openingBalances == old(db.openingBalances) && db.ledger == old(db.ledger)
    ensures db.nextCashBookId == old(db.nextCashBookId) && db.nextVoucherId == old(db.nextVoucherId)
    ensures found <==> VoucherIndex(old(db.vouchers), id).Some?
    ensures !found ==> db.vouchers == old(db.vouchers)
    ensures found ==>
      && db.vouchers == RemoveAt(old(db.vouchers), VoucherIndex(old(db.vouchers), id).value)
      && MirrorRows(db.ledger, id) == MirrorRows(old(db.ledger), id)
  {
    var k := VoucherIndex(db.vouchers, id);
    if k.None? {
      return false;
    }
    db.vouchers := RemoveAt(db.vouchers, k.value);
    return true;
  }

  /** Whether voucher v is shown by the list: it was not registered from an
      imported transaction and, when an account item filter is given, it uses
      that item on either side. */
  predicate Listed(v: Voucher, imported: seq<int>, accountFilter: Option<int>)
  {
    v.id !in imported
    && (Present(accountFilter) ==> v.debitItem == accountFilter.value || v.creditItem == accountFilter.value)
  }

  /** GET /journal-entries without a search text, in table order. */
  function VoucherList(vouchers: seq<Voucher>, imported: seq<int>, accountFilter: Option<int>): (r: seq<Voucher>)
    ensures forall i :: 0 <= i < |r| ==> r[i] in vouchers && r[i].id !in imported
    ensures forall i :: (0 <= i < |vouchers| && vouchers[i].id !in imported
                         && (!Present(accountFilter) || vouchers[i].debitItem == accountFilter.value
                             || vouchers[i].creditItem == accountFilter.value)) ==> vouchers[i] in r
    ensures Present(accountFilter) ==>
      forall i :: 0 <= i < |r| ==> r[i].debitItem == accountFilter.value || r[i].creditItem == accountFilter.value
  {
    Filter(vouchers, (v: Voucher) => Listed(v, imported, accountFilter))
  }
}
