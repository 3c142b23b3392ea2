/** Saving the opening balances (期首残高) of a fiscal period: the form holds a
    'debit_<item id>' and a 'credit_<item id>' box per account item, and each
    item named on the form gets one row per organisation and period, updated
    when it exists and inserted otherwise. */
module OpeningBalances {
  import opened Common
  import opened Text
  import opened Store

  datatype Side = DebitSide | CreditSide

  function SideName(side: Side): string
  {
    match side
    case DebitSide => "debit"
    case CreditSide => "credit"
  }

  /** The name of the input box the opening-balance page renders for one side
      of an account item. */
  function FieldName(side: Side, id: nat): string
  {
    SideName(side) + "_" + ShowNat(id)
  }

  /** The side and the id text of a form key that starts with 'debit_' or
      'credit_' and splits on '_' into exactly two parts; None for any other key. */
  function FieldOf(key: string): Option<(Side, string)>
  {
    if StartsWith(key, "debit_") && '_' !in key[6..] then Some((DebitSide, key[6..]))
    else if StartsWith(key, "credit_") && '_' !in key[7..] then Some((CreditSide, key[7..]))
    else None
  }

  /** A key that is read is its side's name, '_' and an id text without '_'. */
  lemma FieldOfSplits(key: string)
    ensures var r := FieldOf(key);
      r.Some? ==> key == SideName(r.value.0) + "_" + r.value.1 && '_' !in r.value.1
  {
    var r := FieldOf(key);
    if r.Some? {
      var n := if r.value.0 == DebitSide then 6 else 7;
      assert key == key[..n] + key[n..];
    }
  }

  /** float(value) if value else 0, on integers: an empty box is 0. */
  function AmountOf(value: string): (r: Option<int>)
    ensures value == "" ==> r == Some(0)
    ensures value != "" ==> r == ParseInt(value)
  {
    if value == "" then Some(0) else ParseInt(value)
  }

  datatype FormError = BadItemId | BadAmount

  /** An amount read from the form for one side of one account item. */
  datatype Field = Field(side: Side, id: int, amount: int)

  /** One form entry: ignored, an amount for one side of an item, or a value
      that int() or float() rejects, which aborts the whole save. */
  function ReadField(key: string, value: string): Result<Option<Field>, FormError>
  {
    match FieldOf(key)
    case None => Ok(None)
    case Some((side, idText)) =>
      match ParseInt(idText)
      case None => Err(BadItemId)
      case Some(id) =>
        match AmountOf(value)
        case None => Err(BadAmount)
        case Some(amount) => Ok(Some(Field(side, id, amount)))
  }

  /** Only debit_<id> and credit_<id> keys are read; an id that is not a
      number is refused before the amount is looked at; an accepted entry
      carries the side of its key, the number after it and the amount. */
  lemma ReadFieldCases(key: string, value: string)
    ensures var r := ReadField(key, value);
      && (FieldOf(key).None? <==> r == Ok(None))
      && (r == Err(BadItemId) <==> FieldOf(key).Some? && ParseInt(FieldOf(key).value.1).None?)
      && (r == Err(BadAmount) <==>
            FieldOf(key).Some? && ParseInt(FieldOf(key).value.1).Some? && AmountOf(value).None?)
      && (r.Ok? && r.value.Some? ==>
            && FieldOf(key) == Some((r.value.value.side, FieldOf(key).value.1))
            && ParseInt(FieldOf(key).value.1) == Some(r.value.value.id)
            && AmountOf(value) == Some(r.value.value.amount))
  {
  }

  /** The page's own field names read back as the side and item they were
      rendered for. */
  lemma FieldNameRoundTrip(side: Side, id: nat, value: nat)
    ensures ReadField(FieldName(side, id), ShowNat(value)) == Ok(Some(Field(side, id, value)))
  {
    FieldOfFieldName(side, id);
    DigitsOfShowNat(id);
    DigitsOfShowNat(value);
  }

  /** The name of a box splits back into its side and the item's digits. */
  lemma FieldOfFieldName(side: Side, id: nat)
    ensures FieldOf(FieldName(side, id)) == Some((side, ShowNat(id)))
  {
    var key := FieldName(side, id);
    var digits := ShowNat(id);
    assert '_' !in digits by {
      assert AllDigits(digits);
      forall i | 0 <= i < |digits| ensures digits[i] != '_' {
        assert IsDigit(digits[i]);
      }
    }
    match side
    case DebitSide =>
      assert key == "debit_" + digits;
      assert key[..6] == "debit_" && key[6..] == digits;
    case CreditSide =>
      assert key == "credit_" + digits;
      assert key[1] == 'r' && "debit_"[1] == 'e';
      assert key[..7] == "credit_" && key[7..] == digits;
  }

  datatype Amounts = Amounts(debit: int, credit: int)

  /** account_data: the items in the order the form first names them, and the
      debit and credit each one ends with. */
  datatype AccountData = AccountData(order: seq<int>, amounts: map<int, Amounts>)

  ghost predicate WellFormed(d: AccountData)
  {
    && (forall i, j :: 0 <= i < j < |d.order| ==> d.order[i] != d.order[j])
    && (forall id :: id in d.amounts <==> id in d.order)
  }

  /** A field overwrites its side of the item; an item seen for the first time
      starts from debit 0, credit 0. */
  function Record(d: AccountData, f: Field): AccountData
  {
    var before := if f.id in d.amounts then d.amounts[f.id] else Amounts(0, 0);
    var after := match f.side
      case DebitSide => before.(debit := f.amount)
      case CreditSide => before.(credit := f.amount);
    AccountData(if f.id in d.amounts then d.order else d.order + [f.id], d.amounts[f.id := after])
  }

  /** The form read entry by entry; the first entry that fails to parse fails it. */
  function ReadAmounts(form: seq<(string, string)>): (r: Result<AccountData, FormError>)
    ensures r.Ok? ==> WellFormed(r.value)
  {
    if form == [] then Ok(AccountData([], map[])) else
      match ReadAmounts(form[..|form| - 1])
      case Err(e) => Err(e)
      case Ok(d) =>
        match ReadField(form[|form| - 1].0, form[|form| - 1].1)
        case Err(e) => Err(e)
        case Ok(None) => Ok(d)
        case Ok(Some(f)) => Ok(Record(d, f))
  }

  /** Whether a form entry sets a side of the item. */
  predicate Sets(entry: (string, string), id: int)
  {
    var f := ReadField(entry.0, entry.1);
    f.Ok? && f.value.Some? && f.value.value.id == id
  }

  /** Whether some entry of the form sets a side of the item. */
  predicate Mentions(form: seq<(string, string)>, id: int)
  {
    exists i :: 0 <= i < |form| && Sets(form[i], id)
  }

  /** The amount of the last entry for that side of the item; 0 when there is none. */
  function LastAmount(form: seq<(string, string)>, side: Side, id: int): int
  {
    if form == [] then 0 else
      var last := ReadField(form[|form| - 1].0, form[|form| - 1].1);
      if last.Ok? && last.value.Some? && last.value.value.side == side && last.value.value.id == id
      then last.value.value.amount
      else LastAmount(form[..|form| - 1], side, id)
  }

  /** An entry of a prefix is an entry of the form. */
  lemma MentionsPrefix(form: seq<(string, string)>, n: nat, id: int)
    requires n <= |form|
    ensures Mentions(form[..n], id) ==> Mentions(form, id)
  {
    if Mentions(form[..n], id) {
      var p := form[..n];
      var i :| 0 <= i < |p| && Sets(p[i], id);
      assert p[i] == form[i];
    }
  }

  lemma {:induction false} LastAmountUnmentioned(form: seq<(string, string)>, side: Side, id: int)
    requires !Mentions(form, id)
    ensures LastAmount(form, side, id) == 0
  {
    if form != [] {
      MentionsPrefix(form, |form| - 1, id);
      LastAmountUnmentioned(form[..|form| - 1], side, id);
    }
  }

  /** The form mentions an item when its front does or its last entry sets it. */
  lemma MentionsLast(form: seq<(string, string)>, id: int)
    requires form != []
    ensures Mentions(form, id) <==> Mentions(form[..|form| - 1], id) || Sets(form[|form| - 1], id)
  {
    var n := |form| - 1;
    var p := form[..n];
    if Mentions(form, id) {
      var i :| 0 <= i < |form| && Sets(form[i], id);
      if i < n {
        assert p[i] == form[i];
        assert Mentions(p, id);
      }
    }
    MentionsPrefix(form, n, id);
    if Sets(form[n], id) {
      assert Mentions(form, id);
    }
  }

  /** A successful parse holds exactly the items some entry names. */
  lemma {:induction false} ReadAmountsKeys(form: seq<(string, string)>)
    requires ReadAmounts(form).Ok?
    ensures forall id :: id in ReadAmounts(form).value.amounts <==> Mentions(form, id)
  {
    if form != [] {
      ReadAmountsKeys(form[..|form| - 1]);
      forall id ensures id in ReadAmounts(form).value.amounts <==> Mentions(form, id) {
        MentionsLast(form, id);
      }
    }
  }

  /** A successful parse holds, for each side of an item, the last amount given. */
  lemma {:induction false} ReadAmountsValues(form: seq<(string, string)>)
    requires ReadAmounts(form).Ok?
    ensures forall id :: id in ReadAmounts(form).value.amounts ==>
      ReadAmounts(form).value.amounts[id] == Amounts(LastAmount(form, DebitSide, id), LastAmount(form, CreditSide, id))
  {
    if form != [] {
      var n := |form| - 1;
      var p := form[..n];
      ReadAmountsValues(p);
      ReadAmountsKeys(p);
      var d := ReadAmounts(p).value;
      var last := ReadField(form[n].0, form[n].1);
      if last.Ok? && last.value.Some? {
        var f := last.value.value;
        forall id | id in ReadAmounts(form).value.amounts
          ensures ReadAmounts(form).value.amounts[id] == Amounts(LastAmount(form, DebitSide, id), LastAmount(form, CreditSide, id))
        {
          if id == f.id && f.id !in d.amounts {
            LastAmountUnmentioned(p, DebitSide, id);
            LastAmountUnmentioned(p, CreditSide, id);
          }
        }
      }
    }
  }

  /** An entry that fails to parse fails every longer form. */
  lemma {:induction false} ReadAmountsStopsAtError(form: seq<(string, string)>, i: nat)
    requires i <= |form| && ReadAmounts(form[..i]).Err?
    ensures ReadAmounts(form) == ReadAmounts(form[..i])
    decreases |form| - i
  {
    if i < |form| {
      assert form[..i + 1][..i] == form[..i];
      ReadAmountsStopsAtError(form, i + 1);
    } else {
      assert form[..i] == form;
    }
  }

  /** The handler's loop over request.form.items(). */
  method ParseForm(form: seq<(string, string)>) returns (r: Result<AccountData, FormError>)
    ensures r == ReadAmounts(form)
    ensures r.Ok? ==> WellFormed(r.value)
  {
    var d := AccountData([], map[]);
    var i := 0;
    while i < |form|
      invariant 0 <= i <= |form|
      invariant ReadAmounts(form[..i]) == Ok(d)
    {
      assert form[..i + 1][..i] == form[..i];
      var (key, value) := form[i];
      var field := ReadField(key, value);
      if field.Err? {
        ReadAmountsStopsAtError(form, i + 1);
        return Err(field.error);
      }
      if field.value.Some? {
        d := Record(d, field.value.value);
      }
      i := i + 1;
    }
    assert form[..i] == form;
    return Ok(d);
  }

  predicate Matches(ob: OpeningBalance, org: int, period: int, item: int)
  {
    ob.orgId == org && ob.periodId == period && ob.itemId == item
  }

  /** The row existing_balance_dict keeps for the item: of the period's rows
      for it, the last one. */
  function LastIndex(s: seq<OpeningBalance>, org: int, period: int, item: int): (r: Option<nat>)
    ensures r.Some? ==> r.value < |s| && Matches(s[r.value], org, period, item)
    ensures r.Some? ==> forall j :: r.value < j < |s| ==> !Matches(s[j], org, period, item)
    ensures r.None? ==> forall j :: 0 <= j < |s| ==> !Matches(s[j], org, period, item)
  {
    if s == [] then None
    else if Matches(s[|s| - 1], org, period, item) then Some(|s| - 1)
    else LastIndex(s[..|s| - 1], org, period, item)
  }

  /** The amounts stored for the item in the period, as the row the handler
      would update next time. */
  function Stored(s: seq<OpeningBalance>, org: int, period: int, item: int): Option<Amounts>
  {
    match LastIndex(s, org, period, item)
    case None => None
    case Some(k) => Some(Amounts(s[k].debit, s[k].credit))
  }

  /** One item of the save loop: the row found in the table as it was before
      the loop gets the new amounts, or a new row is added. */
  function Upsert(orig: seq<OpeningBalance>, cur: seq<OpeningBalance>, org: int, period: int, item: int, a: Amounts): (r: seq<OpeningBalance>)
    requires |orig| <= |cur|
    ensures |cur| <= |r|
  {
    match LastIndex(orig, org, period, item)
    case Some(k) => cur[k := cur[k].(debit := a.debit, credit := a.credit)]
    case None => cur + [OpeningBalance(org, period, item, a.debit, a.credit)]
  }

  /** The save loop over account_data in its order. */
  function UpsertAll(orig: seq<OpeningBalance>, org: int, period: int, order: seq<int>, amounts: map<int, Amounts>): (r: seq<OpeningBalance>)
    requires forall id :: id in order ==> id in amounts
    ensures |orig| <= |r|
    ensures forall k :: 0 <= k < |orig| && !(orig[k].orgId == org && orig[k].periodId == period) ==> r[k] == orig[k]
  {
    if order == [] then orig else
      var prev := UpsertAll(orig, org, period, order[..|order| - 1], amounts);
      Upsert(orig, prev, org, period, order[|order| - 1], amounts[order[|order| - 1]])
  }

  /** Two tables whose rows agree on organisation, period and item have their
      last rows for every item at the same places. */
  lemma {:induction false} LastIndexSameKeys(s: seq<OpeningBalance>, t: seq<OpeningBalance>, org: int, period: int, item: int)
    requires |s| == |t|
    requires forall i :: 0 <= i < |s| ==> s[i].orgId == t[i].orgId && s[i].periodId == t[i].periodId && s[i].itemId == t[i].itemId
    ensures LastIndex(s, org, period, item) == LastIndex(t, org, period, item)
  {
    if s != [] {
      LastIndexSameKeys(s[..|s| - 1], t[..|t| - 1], org, period, item);
    }
  }

  /** One upsert step sets the item's stored amounts and leaves every other
      item's last row where it was and as it was. */
  lemma UpsertStep(orig: seq<OpeningBalance>, cur: seq<OpeningBalance>, org: int, period: int, x: int, a: Amounts)
    requires |orig| <= |cur|
    requires LastIndex(cur, org, period, x) == LastIndex(orig, org, period, x)
    ensures Stored(Upsert(orig, cur, org, period, x, a), org, period, x) == Some(a)
    ensures forall y :: y != x ==>
      && LastIndex(Upsert(orig, cur, org, period, x, a), org, period, y) == LastIndex(cur, org, period, y)
      && Stored(Upsert(orig, cur, org, period, x, a), org, period, y) == Stored(cur, org, period, y)
  {
    var r := Upsert(orig, cur, org, period, x, a);
    match LastIndex(orig, org, period, x)
    case Some(k) =>
      forall y ensures LastIndex(r, org, period, y) == LastIndex(cur, org, period, y) {
        LastIndexSameKeys(r, cur, org, period, y);
      }
      LastIndexSameKeys(r, cur, org, period, x);
    case None =>
      assert r[..|cur|] == cur;
  }

  /** What a successful save leaves in the table: every item the form names
      reads back with the form's amounts, and every other item of the period
      keeps its row and its amounts. */
  lemma {:induction false} UpsertAllStores(orig: seq<OpeningBalance>, org: int, period: int, order: seq<int>, amounts: map<int, Amounts>)
    requires forall id :: id in order ==> id in amounts
    requires forall i, j :: 0 <= i < j < |order| ==> order[i] != order[j]
    ensures forall id :: id in order ==> Stored(UpsertAll(orig, org, period, order, amounts), org, period, id) == Some(amounts[id])
    ensures forall id :: id !in order ==>
      && LastIndex(UpsertAll(orig, org, period, order, amounts), org, period, id) == LastIndex(orig, org, period, id)
      && Stored(UpsertAll(orig, org, period, order, amounts), org, period, id) == Stored(orig, org, period, id)
  {
    if order != [] {
      var n := |order| - 1;
      var p := order[..n];
      var x := order[n];
      assert x !in p by {
        forall i | 0 <= i < n ensures p[i] != x {
          assert order[i] != order[n];
        }
      }
      UpsertAllStores(orig, org, period, p, amounts);
      var prev := UpsertAll(orig, org, period, p, amounts);
      UpsertStep(orig, prev, org, period, x, amounts[x]);
      forall id | id in order ensures id == x || id in p {
        var i :| 0 <= i < |order| && order[i] == id;
        if i < n {
          assert p[i] == id;
        }
      }
    }
  }

  /** existing_balance_dict: for each item of the period, the index of its
      last row. */
  method ExistingRows(orig: seq<OpeningBalance>, org: int, period: int) returns (m: map<int, nat>)
    ensures forall id :: id in m <==> LastIndex(orig, org, period, id).Some?
    ensures forall id :: id in m ==> m[id] == LastIndex(orig, org, period, id).value
  {
    m := map[];
    var j := 0;
    while j < |orig|
      invariant 0 <= j <= |orig|
      invariant forall id :: id in m <==> LastIndex(orig[..j], org, period, id).Some?
      invariant forall id :: id in m ==> m[id] == LastIndex(orig[..j], org, period, id).value
    {
      assert orig[..j + 1][..j] == orig[..j];
      if orig[j].orgId == org && orig[j].periodId == period {
        m := m[orig[j].itemId := j];
      }
      j := j + 1;
    }
    assert orig[..j] == orig;
  }

  /** The update-or-insert loop over account_data. */
  method SaveRows(orig: seq<OpeningBalance>, org: int, period: int, d: AccountData) returns (rows: seq<OpeningBalance>)
    requires WellFormed(d)
    ensures rows == UpsertAll(orig, org, period, d.order, d.amounts)
  {
    var existing := ExistingRows(orig, org, period);
    rows := orig;
    var i := 0;
    while i < |d.order|
      invariant 0 <= i <= |d.order|
      invariant |orig| <= |rows|
      invariant rows == UpsertAll(orig, org, period, d.order[..i], d.amounts)
    {
      assert d.order[..i + 1][..i] == d.order[..i];
      var id := d.order[i];
      var a := d.amounts[id];
      if id in existing {
        var k := existing[id];
        rows := rows[k := rows[k].(debit := a.debit, credit := a.credit)];
      } else {
        rows := rows + [OpeningBalance(org, period, id, a.debit, a.credit)];
      }
      i := i + 1;
    }
    assert d.order[..i] == d.order;
  }

  datatype SaveError = NoPeriod | BadForm(error: FormError) | StoreRejected

  /** POST /opening-balances/save. Without a fiscal_period_id nothing happens;
      a form value that does not parse rolls the whole save back; without an
      organisation in the session a new row cannot be inserted (the columns
      are NOT NULL), which also rolls back. */
  method SaveOpeningBalances(db: Books, org: Option<int>, periodId: Option<int>, form: seq<(string, string)>)
    returns (r: Result<(), SaveError>)
    requires db.Valid()
    modifies db
    ensures db.Valid()
    ensures db.items == old(db.items) && db.accounts == old(db.accounts) && db.ledger == old(db.ledger)
    ensures db.cashBooks == old(db.cashBooks) && db.vouchers == old(db.vouchers)
    ensures r.Err? ==> db.openingBalances == old(db.openingBalances)
    ensures !Present(periodId) ==> r == Err(NoPeriod)
    ensures Present(periodId) && ReadAmounts(form).Err? ==> r == Err(BadForm(ReadAmounts(form).error))
    ensures Present(periodId) && ReadAmounts(form).Ok? && org.None? ==>
      if ReadAmounts(form).value.order == [] then r == Ok(()) else r == Err(StoreRejected)
    ensures Present(periodId) && ReadAmounts(form).Ok? && org.Some? ==>
      && r == Ok(())
      && db.openingBalances == UpsertAll(old(db.openingBalances), org.value, periodId.value,
                                         ReadAmounts(form).value.order, ReadAmounts(form).value.amounts)
  {
    if !Present(periodId) {
      return Err(NoPeriod);
    }
    var parsed := ParseForm(form);
    if parsed.Err? {
      return Err(BadForm(parsed.error));
    }
    var d := parsed.value;
    if org.None? {
      if d.order == [] {
        return Ok(());
      }
      return Err(StoreRejected);
    }
    var rows := SaveRows(db.openingBalances, org.value, periodId.value, d);
    db.SetOpeningBalances(rows);
    return Ok(());
  }
}
