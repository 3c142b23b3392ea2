/** The figures of the trial balance (試算表): per account item, the opening
    balance, the period's debits and credits and the closing balance, split
    into balance-sheet and profit-and-loss rows with their debit and credit
    totals. */
module TrialBalance {
  import opened Common
  import opened Text
  import opened Catalog
  import opened Ledger
  import opened Store

  /** The id and dates of the selected fiscal period. */
  datatype Period = Period(id: int, start: string, end: string)

  datatype TbError =
    | NoPeriod            // no period selected: the page fails to render
    | MissingOpeningItem  // an opening_balances row whose account item is gone

  /** One entry of account_summary. */
  datatype Summary = Summary(opening: int, debit: int, credit: int)

  function Plus(a: Summary, b: Summary): Summary
  {
    Summary(a.opening + b.opening, a.debit + b.debit, a.credit + b.credit)
  }

  /** account_summary: the account items in the order they were first met, with
      their figures. */
  datatype Table = Table(keys: seq<int>, sums: map<int, Summary>)

  ghost predicate WellFormed(t: Table)
  {
    && (forall i, j :: 0 <= i < j < |t.keys| ==> t.keys[i] != t.keys[j])
    && (forall k :: k in t.sums <==> k in t.keys)
  }

  /** The figures of an item; zeros for one not met yet. */
  function Entry(t: Table, k: int): Summary
  {
    if k in t.sums then t.sums[k] else Summary(0, 0, 0)
  }

  /** Adds to an item's figures; an item met for the first time enters with zeros. */
  function Touch(t: Table, k: int, delta: Summary): Table
  {
    Table(if k in t.sums then t.keys else t.keys + [k], t.sums[k := Plus(Entry(t, k), delta)])
  }

  lemma TouchKeys(t: Table, k: int, delta: Summary, s: seq<int>)
    requires WellFormed(t) && t.keys == Dedup(s)
    ensures WellFormed(Touch(t, k, delta)) && Touch(t, k, delta).keys == Dedup(s + [k])
  {
    DedupSnoc(s, k);
    assert k in t.sums <==> k in s;
  }

  /** 財産 is read as 負債 wherever the major category is looked at. */
  function NormalMajor(major: string): string
  {
    if major == "財産" then "負債" else major
  }

  /** What an opening_balances row adds to its item's opening balance:
      credit minus debit for liabilities and net assets, debit minus credit
      for every other major category. */
  function ObSigned(item: AccountItem, ob: OpeningBalance): int
  {
    if NormalMajor(item.major) in {"負債", "純資産"} then ob.credit - ob.debit else ob.debit - ob.credit
  }

  // ---------------------------------------------------------------------------
  // The three accumulation loops, as folds

  function OpeningsFold(items: seq<AccountItem>, obs: seq<OpeningBalance>): Result<Table, TbError>
  {
    if obs == [] then Ok(Table([], map[])) else
      match OpeningsFold(items, obs[..|obs| - 1])
      case Err(e) => Err(e)
      case Ok(t) =>
        var ob := obs[|obs| - 1];
        match FindItem(items, ob.itemId)
        case None => Err(MissingOpeningItem)
        case Some(item) => Ok(Touch(t, ob.itemId, Summary(ObSigned(item, ob), 0, 0)))
  }

  /** Postings before the period: the debit adds to the debit item's opening
      balance, the credit subtracts from the credit item's. */
  function PriorFold(t: Table, pre: seq<LedgerRow>): Table
  {
    if pre == [] then t else
      var r := pre[|pre| - 1];
      var u := PriorFold(t, pre[..|pre| - 1]);
      Touch(Touch(u, r.debitItem, Summary(r.debitAmount, 0, 0)), r.creditItem, Summary(-r.creditAmount, 0, 0))
  }

  /** Postings in the period: current debit and current credit. */
  function CurrentFold(t: Table, cur: seq<LedgerRow>): Table
  {
    if cur == [] then t else
      var r := cur[|cur| - 1];
      var u := CurrentFold(t, cur[..|cur| - 1]);
      Touch(Touch(u, r.debitItem, Summary(0, r.debitAmount, 0)), r.creditItem, Summary(0, 0, r.creditAmount))
  }

  /** account_summary after all three loops. */
  function Summarize(items: seq<AccountItem>, obs: seq<OpeningBalance>, pre: seq<LedgerRow>, cur: seq<LedgerRow>): Result<Table, TbError>
  {
    match OpeningsFold(items, obs)
    case Err(e) => Err(e)
    case Ok(t) => Ok(CurrentFold(PriorFold(t, pre), cur))
  }

  // ---------------------------------------------------------------------------
  // Closed forms of the figures

  datatype Column = DebitColumn | CreditColumn

  function ItemOn(r: LedgerRow, c: Column): int
  {
    match c
    case DebitColumn => r.debitItem
    case CreditColumn => r.creditItem
  }

  function AmountOn(r: LedgerRow, c: Column): int
  {
    match c
    case DebitColumn => r.debitAmount
    case CreditColumn => r.creditAmount
  }

  /** The total the rows post to item k on one side. */
  function Posted(rows: seq<LedgerRow>, c: Column, k: int): int
  {
    if rows == [] then 0 else
      Posted(rows[..|rows| - 1], c, k) + (if ItemOn(rows[|rows| - 1], c) == k then AmountOn(rows[|rows| - 1], c) else 0)
  }

  /** The total of one side of all rows. */
  function Total(rows: seq<LedgerRow>, c: Column): int
  {
    if rows == [] then 0 else Total(rows[..|rows| - 1], c) + AmountOn(rows[|rows| - 1], c)
  }

  /** The items of the opening_balances rows, in order. */
  function ObKeys(obs: seq<OpeningBalance>): seq<int>
  {
    if obs == [] then [] else ObKeys(obs[..|obs| - 1]) + [obs[|obs| - 1].itemId]
  }

  /** The debit item then the credit item of every row, in order. */
  function RowKeys(rows: seq<LedgerRow>): seq<int>
  {
    if rows == [] then [] else RowKeys(rows[..|rows| - 1]) + [rows[|rows| - 1].debitItem, rows[|rows| - 1].creditItem]
  }

  /** The signed opening_balances rows of item k added up. */
  function ObOpening(items: seq<AccountItem>, obs: seq<OpeningBalance>, k: int): int
  {
    if obs == [] then 0 else
      var ob := obs[|obs| - 1];
      ObOpening(items, obs[..|obs| - 1], k) +
        (if ob.itemId == k then match FindItem(items, k) case Some(item) => ObSigned(item, ob) case None => 0 else 0)
  }

  lemma {:induction false} OpeningsFoldFound(items: seq<AccountItem>, obs: seq<OpeningBalance>, i: nat)
    requires OpeningsFold(items, obs).Ok? && i < |obs|
    ensures FindItem(items, obs[i].itemId).Some?
  {
    var n := |obs| - 1;
    if i < n {
      OpeningsFoldFound(items, obs[..n], i);
      assert obs[..n][i] == obs[i];
    }
  }

  lemma {:induction false} FoundOpeningsFold(items: seq<AccountItem>, obs: seq<OpeningBalance>)
    requires forall i :: 0 <= i < |obs| ==> FindItem(items, obs[i].itemId).Some?
    ensures OpeningsFold(items, obs).Ok?
  {
    if obs != [] {
      var n := |obs| - 1;
      forall i | 0 <= i < n ensures FindItem(items, obs[..n][i].itemId).Some? {
        assert obs[..n][i] == obs[i];
      }
      FoundOpeningsFold(items, obs[..n]);
      assert FindItem(items, obs[n].itemId).Some?;
    }
  }

  /** The opening-balance loop fails exactly when a row names a missing item. */
  lemma OpeningsFoldOk(items: seq<AccountItem>, obs: seq<OpeningBalance>)
    ensures OpeningsFold(items, obs).Ok? <==> forall i :: 0 <= i < |obs| ==> FindItem(items, obs[i].itemId).Some?
  {
    if OpeningsFold(items, obs).Ok? {
      forall i | 0 <= i < |obs| ensures FindItem(items, obs[i].itemId).Some? {
        OpeningsFoldFound(items, obs, i);
      }
    } else if forall i :: 0 <= i < |obs| ==> FindItem(items, obs[i].itemId).Some? {
      FoundOpeningsFold(items, obs);
    }
  }

  /** The items of the table are those of the rows, once each, in first-row order. */
  lemma {:induction false} OpeningsFoldKeys(items: seq<AccountItem>, obs: seq<OpeningBalance>)
    requires OpeningsFold(items, obs).Ok?
    ensures WellFormed(OpeningsFold(items, obs).value)
    ensures OpeningsFold(items, obs).value.keys == Dedup(ObKeys(obs))
  {
    if obs == [] {
      assert Dedup(ObKeys(obs)) == [];
    } else {
      var n := |obs| - 1;
      OpeningsFoldKeys(items, obs[..n]);
      var t := OpeningsFold(items, obs[..n]).value;
      TouchKeys(t, obs[n].itemId, Summary(ObSigned(FindItem(items, obs[n].itemId).value, obs[n]), 0, 0), ObKeys(obs[..n]));
    }
  }

  /** Each item's opening is its signed rows added up. */
  lemma {:induction false} OpeningsFoldEntries(items: seq<AccountItem>, obs: seq<OpeningBalance>)
    requires OpeningsFold(items, obs).Ok?
    ensures forall k :: Entry(OpeningsFold(items, obs).value, k) == Summary(ObOpening(items, obs, k), 0, 0)
  {
    if obs != [] {
      var n := |obs| - 1;
      OpeningsFoldEntries(items, obs[..n]);
      var t := OpeningsFold(items, obs[..n]).value;
      var delta := Summary(ObSigned(FindItem(items, obs[n].itemId).value, obs[n]), 0, 0);
      forall k ensures Entry(OpeningsFold(items, obs).value, k) == Summary(ObOpening(items, obs, k), 0, 0) {
        TouchEntry(t, obs[n].itemId, delta, k);
      }
    }
  }

  lemma OpeningsFoldForm(items: seq<AccountItem>, obs: seq<OpeningBalance>)
    ensures OpeningsFold(items, obs).Ok? <==> forall i :: 0 <= i < |obs| ==> FindItem(items, obs[i].itemId).Some?
    ensures OpeningsFold(items, obs).Ok? ==>
      var t := OpeningsFold(items, obs).value;
      && WellFormed(t) && t.keys == Dedup(ObKeys(obs))
      && forall k :: Entry(t, k) == Summary(ObOpening(items, obs, k), 0, 0)
  {
    OpeningsFoldOk(items, obs);
    if OpeningsFold(items, obs).Ok? {
      OpeningsFoldKeys(items, obs);
      OpeningsFoldEntries(items, obs);
    }
  }

  lemma RowKeysSnoc(s: seq<int>, rows: seq<LedgerRow>)
    requires rows != []
    ensures s + RowKeys(rows) == s + RowKeys(rows[..|rows| - 1]) + [rows[|rows| - 1].debitItem] + [rows[|rows| - 1].creditItem]
  {
    var n := |rows| - 1;
    var d, c := rows[n].debitItem, rows[n].creditItem;
    var b := RowKeys(rows[..n]);
    assert RowKeys(rows) == b + [d, c];
    AppendTwo(s, b, d, c);
  }

  lemma AppendTwo(a: seq<int>, b: seq<int>, x: int, y: int)
    ensures a + (b + [x, y]) == a + b + [x] + [y]
  {
  }

  lemma TouchEntry(t: Table, k: int, delta: Summary, j: int)
    ensures Entry(Touch(t, k, delta), j) == if j == k then Plus(Entry(t, k), delta) else Entry(t, j)
  {
  }

  lemma {:induction false} PriorFoldKeys(t: Table, s: seq<int>, pre: seq<LedgerRow>)
    requires WellFormed(t) && t.keys == Dedup(s)
    ensures WellFormed(PriorFold(t, pre)) && PriorFold(t, pre).keys == Dedup(s + RowKeys(pre))
  {
    if pre == [] {
      assert s + RowKeys(pre) == s;
    } else {
      var n := |pre| - 1;
      var r := pre[n];
      RowKeysSnoc(s, pre);
      PriorFoldKeys(t, s, pre[..n]);
      var u := PriorFold(t, pre[..n]);
      var s1 := s + RowKeys(pre[..n]);
      var w := Touch(u, r.debitItem, Summary(r.debitAmount, 0, 0));
      TouchKeys(u, r.debitItem, Summary(r.debitAmount, 0, 0), s1);
      TouchKeys(w, r.creditItem, Summary(-r.creditAmount, 0, 0), s1 + [r.debitItem]);
    }
  }

  lemma {:induction false} PriorFoldEntry(t: Table, pre: seq<LedgerRow>, k: int)
    ensures Entry(PriorFold(t, pre), k).opening == Entry(t, k).opening + Posted(pre, DebitColumn, k) - Posted(pre, CreditColumn, k)
    ensures Entry(PriorFold(t, pre), k).debit == Entry(t, k).debit
    ensures Entry(PriorFold(t, pre), k).credit == Entry(t, k).credit
  {
    if pre != [] {
      var n := |pre| - 1;
      var r := pre[n];
      PriorFoldEntry(t, pre[..n], k);
      var u := PriorFold(t, pre[..n]);
      var v := Touch(u, r.debitItem, Summary(r.debitAmount, 0, 0));
      assert PriorFold(t, pre) == Touch(v, r.creditItem, Summary(-r.creditAmount, 0, 0));
      TouchEntry(u, r.debitItem, Summary(r.debitAmount, 0, 0), k);
      TouchEntry(v, r.creditItem, Summary(-r.creditAmount, 0, 0), k);
      assert Posted(pre, DebitColumn, k) == Posted(pre[..n], DebitColumn, k) + (if r.debitItem == k then r.debitAmount else 0);
      assert Posted(pre, CreditColumn, k) == Posted(pre[..n], CreditColumn, k) + (if r.creditItem == k then r.creditAmount else 0);
    }
  }

  lemma {:induction false} CurrentFoldKeys(t: Table, s: seq<int>, cur: seq<LedgerRow>)
    requires WellFormed(t) && t.keys == Dedup(s)
    ensures WellFormed(CurrentFold(t, cur)) && CurrentFold(t, cur).keys == Dedup(s + RowKeys(cur))
  {
    if cur == [] {
      assert s + RowKeys(cur) == s;
    } else {
      var n := |cur| - 1;
      var r := cur[n];
      RowKeysSnoc(s, cur);
      CurrentFoldKeys(t, s, cur[..n]);
      var u := CurrentFold(t, cur[..n]);
      var s1 := s + RowKeys(cur[..n]);
      var w := Touch(u, r.debitItem, Summary(0, r.debitAmount, 0));
      TouchKeys(u, r.debitItem, Summary(0, r.debitAmount, 0), s1);
      TouchKeys(w, r.creditItem, Summary(0, 0, r.creditAmount), s1 + [r.debitItem]);
    }
  }

  lemma {:induction false} CurrentFoldEntry(t: Table, cur: seq<LedgerRow>, k: int)
    ensures Entry(CurrentFold(t, cur), k).opening == Entry(t, k).opening
    ensures Entry(CurrentFold(t, cur), k).debit == Entry(t, k).debit + Posted(cur, DebitColumn, k)
    ensures Entry(CurrentFold(t, cur), k).credit == Entry(t, k).credit + Posted(cur, CreditColumn, k)
  {
    if cur != [] {
      var n := |cur| - 1;
      var r := cur[n];
      CurrentFoldEntry(t, cur[..n], k);
      var u := CurrentFold(t, cur[..n]);
      var v := Touch(u, r.debitItem, Summary(0, r.debitAmount, 0));
      assert CurrentFold(t, cur) == Touch(v, r.creditItem, Summary(0, 0, r.creditAmount));
      TouchEntry(u, r.debitItem, Summary(0, r.debitAmount, 0), k);
      TouchEntry(v, r.creditItem, Summary(0, 0, r.creditAmount), k);
      assert Posted(cur, DebitColumn, k) == Posted(cur[..n], DebitColumn, k) + (if r.debitItem == k then r.debitAmount else 0);
      assert Posted(cur, CreditColumn, k) == Posted(cur[..n], CreditColumn, k) + (if r.creditItem == k then r.creditAmount else 0);
    }
  }

  /** account_summary against an independent reading: it fails exactly when an
      opening_balances row has no account item; otherwise its keys are the
      items of the opening rows, then of the prior postings, then of the
      period's postings, each once in order of first appearance, and each
      item's figures are the signed opening rows plus the prior debits minus
      the prior credits, and the debits and credits posted to it in the period. */
  lemma SummarizeFigures(items: seq<AccountItem>, obs: seq<OpeningBalance>, pre: seq<LedgerRow>, cur: seq<LedgerRow>)
    ensures Summarize(items, obs, pre, cur).Ok? <==> forall i :: 0 <= i < |obs| ==> FindItem(items, obs[i].itemId).Some?
    ensures Summarize(items, obs, pre, cur).Ok? ==>
      var t := Summarize(items, obs, pre, cur).value;
      && WellFormed(t)
      && t.keys == Dedup(ObKeys(obs) + RowKeys(pre) + RowKeys(cur))
      && forall k :: Entry(t, k) == Summary(
           ObOpening(items, obs, k) + Posted(pre, DebitColumn, k) - Posted(pre, CreditColumn, k),
           Posted(cur, DebitColumn, k), Posted(cur, CreditColumn, k))
  {
    OpeningsFoldForm(items, obs);
    if OpeningsFold(items, obs).Ok? {
      var t := OpeningsFold(items, obs).value;
      PriorFoldKeys(t, ObKeys(obs), pre);
      CurrentFoldKeys(PriorFold(t, pre), ObKeys(obs) + RowKeys(pre), cur);
      forall k ensures Entry(Summarize(items, obs, pre, cur).value, k) == Summary(
           ObOpening(items, obs, k) + Posted(pre, DebitColumn, k) - Posted(pre, CreditColumn, k),
           Posted(cur, DebitColumn, k), Posted(cur, CreditColumn, k))
      {
        PriorFoldEntry(t, pre, k);
        CurrentFoldEntry(PriorFold(t, pre), cur, k);
      }
    }
  }

  // ---------------------------------------------------------------------------
  // Loops of the handler

  lemma OpeningsFoldSnoc(items: seq<AccountItem>, obs: seq<OpeningBalance>, i: nat)
    requires i < |obs|
    ensures OpeningsFold(items, obs[..i + 1]) ==
      match OpeningsFold(items, obs[..i])
      case Err(e) => Err(e)
      case Ok(t) =>
        match FindItem(items, obs[i].itemId)
        case None => Err(MissingOpeningItem)
        case Some(item) => Ok(Touch(t, obs[i].itemId, Summary(ObSigned(item, obs[i]), 0, 0)))
  {
    TakeSnoc(obs, i);
  }

  /** One opening_balances row: the item enters the table with zeros when it
      is new, then its item is looked up and its signed amount added to the
      opening. */
  method AddOpening(t: Table, items: seq<AccountItem>, ob: OpeningBalance) returns (t': Table, found: bool)
    ensures found <==> FindItem(items, ob.itemId).Some?
    ensures found ==> t' == Touch(t, ob.itemId, Summary(ObSigned(FindItem(items, ob.itemId).value, ob), 0, 0))
  {
    t' := t;
    if ob.itemId !in t'.sums {
      t' := Table(t'.keys + [ob.itemId], t'.sums[ob.itemId := Summary(0, 0, 0)]);
    }
    var item := FindItem(items, ob.itemId);
    if item.None? {
      return t', false;
    }
    var s := t'.sums[ob.itemId];
    t' := t'.(sums := t'.sums[ob.itemId := s.(opening := s.opening + ObSigned(item.value, ob))]);
    found := true;
  }

  /** The loop over the period's opening_balances rows. */
  method AddOpenings(items: seq<AccountItem>, obs: seq<OpeningBalance>) returns (r: Result<Table, TbError>)
    ensures r == OpeningsFold(items, obs)
  {
    var t := Table([], map[]);
    var i := 0;
    while i < |obs|
      invariant 0 <= i <= |obs|
      invariant OpeningsFold(items, obs[..i]) == Ok(t)
    {
      OpeningsFoldSnoc(items, obs, i);
      var found;
      t, found := AddOpening(t, items, obs[i]);
      if !found {
        ErrorPersists(items, obs, i + 1);
        return Err(MissingOpeningItem);
      }
      i := i + 1;
    }
    assert obs[..i] == obs;
    return Ok(t);
  }

  lemma {:induction false} ErrorPersists(items: seq<AccountItem>, obs: seq<OpeningBalance>, i: nat)
    requires i <= |obs| && OpeningsFold(items, obs[..i]).Err?
    ensures OpeningsFold(items, obs) == OpeningsFold(items, obs[..i])
    decreases |obs| - i
  {
    if i < |obs| {
      assert obs[..i + 1][..i] == obs[..i];
      ErrorPersists(items, obs, i + 1);
    } else {
      assert obs[..i] == obs;
    }
  }

  /** account_summary[k][...] += delta, creating the entry with zeros first
      when k is new. */
  method AddTo(t: Table, k: int, delta: Summary) returns (u: Table)
    ensures u == Touch(t, k, delta)
  {
    u := t;
    if k !in u.sums {
      u := Table(u.keys + [k], u.sums[k := Summary(0, 0, 0)]);
    }
    var s := u.sums[k];
    u := u.(sums := u.sums[k := Summary(s.opening + delta.opening, s.debit + delta.debit, s.credit + delta.credit)]);
  }

  /** The loop over the postings before the period. */
  method AddPrior(t0: Table, pre: seq<LedgerRow>) returns (t: Table)
    ensures t == PriorFold(t0, pre)
  {
    t := t0;
    var i := 0;
    while i < |pre|
      invariant 0 <= i <= |pre|
      invariant t == PriorFold(t0, pre[..i])
    {
      assert pre[..i + 1][..i] == pre[..i];
      var r := pre[i];
      t := AddTo(t, r.debitItem, Summary(r.debitAmount, 0, 0));
      t := AddTo(t, r.creditItem, Summary(-r.creditAmount, 0, 0));
      i := i + 1;
    }
    assert pre[..i] == pre;
  }

  /** The loop over the period's postings. */
  method AddCurrent(t0: Table, cur: seq<LedgerRow>) returns (t: Table)
    ensures t == CurrentFold(t0, cur)
  {
    t := t0;
    var i := 0;
    while i < |cur|
      invariant 0 <= i <= |cur|
      invariant t == CurrentFold(t0, cur[..i])
    {
      assert cur[..i + 1][..i] == cur[..i];
      var r := cur[i];
      t := AddTo(t, r.debitItem, Summary(0, r.debitAmount, 0));
      t := AddTo(t, r.creditItem, Summary(0, 0, r.creditAmount));
      i := i + 1;
    }
    assert cur[..i] == cur;
  }

  // ---------------------------------------------------------------------------
  // Balance-sheet / profit-and-loss split

  /** A row of the trial balance. */
  datatype TbRow = TbRow(item: AccountItem, opening: int, debit: int, credit: int, closing: int)

  datatype Report = Report(
    bs: seq<TbRow>, pl: seq<TbRow>,
    bsDebit: int, bsCredit: int, plDebit: int, plCredit: int)

  /** Revenue, liabilities and net assets grow on the credit side. */
  predicate CreditNormal(major: string)
  {
    NormalMajor(major) in {"收入", "収益", "負債", "純資産"}
  }

  /** The closing balance: the period's movement on the item's growing side
      added to the opening balance. */
  function Closing(major: string, s: Summary): (r: int)
    ensures CreditNormal(major) ==> r - s.opening == s.credit - s.debit
    ensures !CreditNormal(major) ==> r - s.opening == s.debit - s.credit
  {
    if CreditNormal(major) then s.opening - s.debit + s.credit else s.opening + s.debit - s.credit
  }

  /** Only major category 損益 goes to the profit-and-loss side; every other
      category, known or not, goes to the balance sheet. */
  predicate OnProfitAndLoss(major: string)
  {
    NormalMajor(major) == "損益"
  }

  function RowOf(item: AccountItem, s: Summary): TbRow
  {
    TbRow(item, s.opening, s.debit, s.credit, Closing(item.major, s))
  }

  /** The loop over account_summary in its order; an item that no longer
      exists is skipped. */
  function ClassifyKeys(items: seq<AccountItem>, t: Table, keys: seq<int>): Report
  {
    if keys == [] then Report([], [], 0, 0, 0, 0) else
      FileKey(items, t, ClassifyKeys(items, t, keys[..|keys| - 1]), keys[|keys| - 1])
  }

  /** One pass of the loop: the item's row goes to its side, and its debit
      and credit to that side's totals. */
  function FileKey(items: seq<AccountItem>, t: Table, rep: Report, k: int): Report
  {
    match FindItem(items, k)
    case None => rep
    case Some(item) =>
      var row := RowOf(item, Entry(t, k));
      if OnProfitAndLoss(item.major)
      then rep.(pl := rep.pl + [row], plDebit := rep.plDebit + row.debit, plCredit := rep.plCredit + row.credit)
      else rep.(bs := rep.bs + [row], bsDebit := rep.bsDebit + row.debit, bsCredit := rep.bsCredit + row.credit)
  }

  function Classify(items: seq<AccountItem>, t: Table): Report
  {
    ClassifyKeys(items, t, t.keys)
  }

  method ClassifyKey(items: seq<AccountItem>, t: Table, rep: Report, k: int) returns (rep': Report)
    requires k in t.sums
    ensures rep' == FileKey(items, t, rep, k)
  {
    rep' := rep;
    var s := t.sums[k];
    var item := FindItem(items, k);
    if item.Some? {
      var ai := item.value;
      var closing := if CreditNormal(ai.major) then s.opening - s.debit + s.credit else s.opening + s.debit - s.credit;
      var row := TbRow(ai, s.opening, s.debit, s.credit, closing);
      if NormalMajor(ai.major) == "損益" {
        rep' := rep'.(pl := rep'.pl + [row], plDebit := rep'.plDebit + s.debit, plCredit := rep'.plCredit + s.credit);
      } else {
        rep' := rep'.(bs := rep'.bs + [row], bsDebit := rep'.bsDebit + s.debit, bsCredit := rep'.bsCredit + s.credit);
      }
    }
  }

  method ClassifyRows(items: seq<AccountItem>, t: Table) returns (rep: Report)
    requires WellFormed(t)
    ensures rep == Classify(items, t)
  {
    rep := Report([], [], 0, 0, 0, 0);
    var i := 0;
    while i < |t.keys|
      invariant 0 <= i <= |t.keys|
      invariant rep == ClassifyKeys(items, t, t.keys[..i])
    {
      TakeSnoc(t.keys, i);
      rep := ClassifyKey(items, t, rep, t.keys[i]);
      i := i + 1;
    }
    assert t.keys[..i] == t.keys;
  }

  // ---------------------------------------------------------------------------
  // The trial balance balances

  /** The figures of one column over the given items. */
  function ColumnOver(t: Table, keys: seq<int>, c: Column): int
  {
    if keys == [] then 0 else
      ColumnOver(t, keys[..|keys| - 1], c) +
        (match c case DebitColumn => Entry(t, keys[|keys| - 1]).debit case CreditColumn => Entry(t, keys[|keys| - 1]).credit)
  }

  /** What the rows post, item by item, over the given items. */
  function PostedOver(rows: seq<LedgerRow>, keys: seq<int>, c: Column): int
  {
    if keys == [] then 0 else PostedOver(rows, keys[..|keys| - 1], c) + Posted(rows, c, keys[|keys| - 1])
  }

  /** The balance-sheet and profit-and-loss totals of a column together are the
      column over every item, when every item exists. */
  lemma {:induction false} ClassifyTotals(items: seq<AccountItem>, t: Table, keys: seq<int>)
    requires forall i :: 0 <= i < |keys| ==> FindItem(items, keys[i]).Some?
    ensures ClassifyKeys(items, t, keys).bsDebit + ClassifyKeys(items, t, keys).plDebit == ColumnOver(t, keys, DebitColumn)
    ensures ClassifyKeys(items, t, keys).bsCredit + ClassifyKeys(items, t, keys).plCredit == ColumnOver(t, keys, CreditColumn)
  {
    if keys != [] {
      var n := |keys| - 1;
      forall i | 0 <= i < n ensures FindItem(items, keys[..n][i]).Some? {
        assert keys[..n][i] == keys[i];
      }
      ClassifyTotals(items, t, keys[..n]);
      assert FindItem(items, keys[n]).Some?;
    }
  }

  lemma {:induction false} ColumnIsPosted(t: Table, rows: seq<LedgerRow>, keys: seq<int>, c: Column)
    requires forall k :: Entry(t, k).debit == Posted(rows, DebitColumn, k) && Entry(t, k).credit == Posted(rows, CreditColumn, k)
    ensures ColumnOver(t, keys, c) == PostedOver(rows, keys, c)
  {
    if keys != [] {
      ColumnIsPosted(t, rows, keys[..|keys| - 1], c);
    }
  }

  /** Adding a row to the postings adds its amount once over items that hold
      its item exactly once, and nothing over items that do not hold it. */
  lemma {:induction false} PostedOverSnoc(rows: seq<LedgerRow>, r: LedgerRow, keys: seq<int>, c: Column)
    requires forall i, j :: 0 <= i < j < |keys| ==> keys[i] != keys[j]
    ensures PostedOver(rows + [r], keys, c) ==
      PostedOver(rows, keys, c) + (if ItemOn(r, c) in keys then AmountOn(r, c) else 0)
  {
    assert (rows + [r])[..|rows|] == rows;
    if keys != [] {
      var n := |keys| - 1;
      PostedOverSnoc(rows, r, keys[..n], c);
      if ItemOn(r, c) == keys[n] {
        assert ItemOn(r, c) !in keys[..n] by {
          forall i | 0 <= i < n ensures keys[..n][i] != keys[n] {
            assert keys[i] != keys[n];
          }
        }
      } else {
        assert ItemOn(r, c) in keys <==> ItemOn(r, c) in keys[..n] by {
          assert keys == keys[..n] + [keys[n]];
        }
      }
    }
  }

  /** Regrouping: over distinct items that hold every item the rows post to,
      the item-by-item totals add up to the column total. */
  lemma {:induction false} PostedRegroups(rows: seq<LedgerRow>, keys: seq<int>, c: Column)
    requires forall i, j :: 0 <= i < j < |keys| ==> keys[i] != keys[j]
    requires forall i :: 0 <= i < |rows| ==> ItemOn(rows[i], c) in keys
    ensures PostedOver(rows, keys, c) == Total(rows, c)
  {
    if rows == [] {
      PostedOverEmpty(keys, c);
    } else {
      var n := |rows| - 1;
      forall i | 0 <= i < n ensures ItemOn(rows[..n][i], c) in keys {
        assert rows[..n][i] == rows[i];
      }
      PostedRegroups(rows[..n], keys, c);
      DropLast(rows);
      PostedOverSnoc(rows[..n], rows[n], keys, c);
    }
  }

  lemma {:induction false} PostedOverEmpty(keys: seq<int>, c: Column)
    ensures PostedOver([], keys, c) == 0
  {
    if keys != [] {
      PostedOverEmpty(keys[..|keys| - 1], c);
    }
  }

  lemma {:induction false} BalancedTotals(rows: seq<LedgerRow>)
    requires AllBalanced(rows)
    ensures Total(rows, DebitColumn) == Total(rows, CreditColumn)
  {
    if rows != [] {
      var n := |rows| - 1;
      forall i | 0 <= i < n ensures Balanced(rows[..n][i]) {
        assert rows[..n][i] == rows[i];
      }
      BalancedTotals(rows[..n]);
      assert Balanced(rows[n]);
    }
  }

  lemma RowKeysHold(rows: seq<LedgerRow>, i: nat)
    requires i < |rows|
    ensures rows[i].debitItem in RowKeys(rows) && rows[i].creditItem in RowKeys(rows)
    decreases |rows|
  {
    var n := |rows| - 1;
    if i < n {
      RowKeysHold(rows[..n], i);
    }
  }

  /** Every item in the summary is one an opening row or a posting names. */
  lemma {:induction false} RowKeysCome(rows: seq<LedgerRow>, k: int)
    requires k in RowKeys(rows)
    ensures exists i :: 0 <= i < |rows| && (rows[i].debitItem == k || rows[i].creditItem == k)
  {
    var n := |rows| - 1;
    if k in RowKeys(rows[..n]) {
      RowKeysCome(rows[..n], k);
      var i :| 0 <= i < n && (rows[..n][i].debitItem == k || rows[..n][i].creditItem == k);
      assert rows[..n][i] == rows[i];
    } else {
      assert rows[n].debitItem == k || rows[n].creditItem == k;
    }
  }

  lemma {:induction false} ObKeysCome(obs: seq<OpeningBalance>, k: int)
    requires k in ObKeys(obs)
    ensures exists i :: 0 <= i < |obs| && obs[i].itemId == k
  {
    var n := |obs| - 1;
    if k in ObKeys(obs[..n]) {
      ObKeysCome(obs[..n], k);
      var i :| 0 <= i < n && obs[..n][i].itemId == k;
      assert obs[..n][i] == obs[i];
    }
  }

  /** Every account item a row of the selection names exists. */
  predicate ItemsExist(items: seq<AccountItem>, rows: seq<LedgerRow>)
  {
    forall i :: 0 <= i < |rows| ==> FindItem(items, rows[i].debitItem).Some? && FindItem(items, rows[i].creditItem).Some?
  }

  /** The trial balance balances: when every posting of the period balances
      and names existing account items, the balance-sheet and profit-and-loss
      debit totals together equal the credit totals together, and both equal
      what the period posted. */
  lemma TrialBalanceBalances(items: seq<AccountItem>, obs: seq<OpeningBalance>, pre: seq<LedgerRow>, cur: seq<LedgerRow>)
    requires Summarize(items, obs, pre, cur).Ok?
    requires ItemsExist(items, pre) && ItemsExist(items, cur)
    requires AllBalanced(cur)
    ensures var rep := Classify(items, Summarize(items, obs, pre, cur).value);
      && rep.bsDebit + rep.plDebit == Total(cur, DebitColumn)
      && rep.bsCredit + rep.plCredit == Total(cur, CreditColumn)
      && rep.bsDebit + rep.plDebit == rep.bsCredit + rep.plCredit
  {
    SummarizeFigures(items, obs, pre, cur);
    var t := Summarize(items, obs, pre, cur).value;
    SummaryItemsExist(items, obs, pre, cur);
    ClassifyTotals(items, t, t.keys);
    PeriodItemsSummarized(items, obs, pre, cur, DebitColumn);
    PeriodItemsSummarized(items, obs, pre, cur, CreditColumn);
    PostedRegroups(cur, t.keys, DebitColumn);
    PostedRegroups(cur, t.keys, CreditColumn);
    ColumnIsPosted(t, cur, t.keys, DebitColumn);
    ColumnIsPosted(t, cur, t.keys, CreditColumn);
    BalancedTotals(cur);
  }

  /** Every item of account_summary exists when every row names existing items. */
  lemma SummaryItemsExist(items: seq<AccountItem>, obs: seq<OpeningBalance>, pre: seq<LedgerRow>, cur: seq<LedgerRow>)
    requires Summarize(items, obs, pre, cur).Ok?
    requires ItemsExist(items, pre) && ItemsExist(items, cur)
    ensures forall i :: 0 <= i < |Summarize(items, obs, pre, cur).value.keys| ==>
      FindItem(items, Summarize(items, obs, pre, cur).value.keys[i]).Some?
  {
    SummarizeFigures(items, obs, pre, cur);
    var t := Summarize(items, obs, pre, cur).value;
    var all := ObKeys(obs) + RowKeys(pre) + RowKeys(cur);
    forall i | 0 <= i < |t.keys| ensures FindItem(items, t.keys[i]).Some? {
      var k := t.keys[i];
      assert k in all;
      if k in ObKeys(obs) {
        ObKeysCome(obs, k);
      } else if k in RowKeys(pre) {
        RowKeysCome(pre, k);
      } else {
        assert k in RowKeys(cur);
        RowKeysCome(cur, k);
      }
    }
  }

  /** Every item the period's postings name is an item of account_summary. */
  lemma PeriodItemsSummarized(items: seq<AccountItem>, obs: seq<OpeningBalance>, pre: seq<LedgerRow>, cur: seq<LedgerRow>, c: Column)
    requires Summarize(items, obs, pre, cur).Ok?
    ensures forall i :: 0 <= i < |cur| ==> ItemOn(cur[i], c) in Summarize(items, obs, pre, cur).value.keys
  {
    SummarizeFigures(items, obs, pre, cur);
    var all := ObKeys(obs) + RowKeys(pre) + RowKeys(cur);
    forall i | 0 <= i < |cur| ensures ItemOn(cur[i], c) in all {
      RowKeysHold(cur, i);
    }
  }

  // ---------------------------------------------------------------------------
  // Selection of the period's rows

  /** The period's opening_balances rows of the organisation; without an
      organisation no row matches, the column being NOT NULL. */
  function PeriodOpenings(obs: seq<OpeningBalance>, org: Option<int>, p: Period): seq<OpeningBalance>
  {
    Filter(obs, (ob: OpeningBalance) => org == Some(ob.orgId) && ob.periodId == p.id)
  }

  /** Postings dated before the period, read only when the period has no
      opening_balances rows. */
  function PriorRows(ledger: seq<LedgerRow>, org: Option<int>, p: Period, openings: seq<OpeningBalance>): seq<LedgerRow>
  {
    if openings == [] then Filter(ledger, (r: LedgerRow) => r.orgId == org && StrLess(r.date, p.start)) else []
  }

  /** Postings dated within the period, both ends included. */
  function PeriodRows(ledger: seq<LedgerRow>, org: Option<int>, p: Period): seq<LedgerRow>
  {
    Filter(ledger, (r: LedgerRow) => r.orgId == org && StrLessEq(p.start, r.date) && StrLessEq(r.date, p.end))
  }

  /** No posting counts both towards the derived opening balance and towards
      the period's movement, and a period with opening_balances rows derives
      nothing from earlier postings. */
  lemma PriorAndPeriodDisjoint(ledger: seq<LedgerRow>, org: Option<int>, p: Period, openings: seq<OpeningBalance>)
    ensures forall r :: r in PriorRows(ledger, org, p, openings) ==> r !in PeriodRows(ledger, org, p)
    ensures openings != [] ==> PriorRows(ledger, org, p, openings) == []
  {
    forall r | r in PriorRows(ledger, org, p, openings) ensures r !in PeriodRows(ledger, org, p) {
      var pre := PriorRows(ledger, org, p, openings);
      var i :| 0 <= i < |pre| && pre[i] == r;
      assert StrLess(r.date, p.start);
      StrLessTrichotomy(r.date, p.start);
      if r.date != p.start && StrLess(p.start, r.date) {
        StrLessTransitive(r.date, p.start, r.date);
        StrLessIrreflexive(r.date);
      } else if r.date == p.start {
        StrLessIrreflexive(r.date);
      }
      assert !StrLessEq(p.start, r.date);
    }
  }

  /** GET /trial-balance, for the selected period: the figures and the split,
      or a failure. */
  method TrialBalanceFigures(items: seq<AccountItem>, obs: seq<OpeningBalance>, ledger: seq<LedgerRow>,
                             org: Option<int>, period: Option<Period>) returns (r: Result<Report, TbError>)
    ensures period.None? ==> r == Err(NoPeriod)
    ensures period.Some? ==>
      var openings := PeriodOpenings(obs, org, period.value);
      var summary := Summarize(items, openings, PriorRows(ledger, org, period.value, openings), PeriodRows(ledger, org, period.value));
      r == (match summary case Err(e) => Err(e) case Ok(t) => Ok(Classify(items, t)))
  {
    if period.None? {
      return Err(NoPeriod);
    }
    var p := period.value;
    var openings := PeriodOpenings(obs, org, p);
    var pre := PriorRows(ledger, org, p, openings);
    var cur := PeriodRows(ledger, org, p);
    var withOpenings := AddOpenings(items, openings);
    if withOpenings.Err? {
      return Err(withOpenings.error);
    }
    OpeningsFoldForm(items, openings);
    var withPrior := AddPrior(withOpenings.value, pre);
    PriorFoldKeys(withOpenings.value, ObKeys(openings), pre);
    var summary := AddCurrent(withPrior, cur);
    CurrentFoldKeys(withPrior, ObKeys(openings) + RowKeys(pre), cur);
    var rep := ClassifyRows(items, summary);
    return Ok(rep);
  }
}
