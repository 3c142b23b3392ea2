/** The ledger of one account item (総勘定元帳) for one fiscal period: the
    opening balance from earlier postings, each posting of the period with
    the counterpart account and the balance after it, and the debit and
    credit totals of each month. */
module LedgerView {
  import opened Common
  import opened Text
  import opened Catalog
  import opened Ledger
  import opened SortKeys
  import opened TrialBalance

  /** A fiscal_periods row as the view looks it up: the organisation and the
      period. */
  datatype PeriodRow = PeriodRow(orgId: int, period: Period)

  /** The first period with the id in the organisation; without an
      organisation none matches. */
  function FindPeriodRow(periods: seq<PeriodRow>, id: int, org: Option<int>): (r: Option<Period>)
    ensures r.Some? ==> exists p :: p in periods && p.period == r.value && r.value.id == id && org == Some(p.orgId)
    ensures r.None? <==> forall p :: p in periods ==> !(p.period.id == id && org == Some(p.orgId))
  {
    if periods == [] then None
    else if periods[0].period.id == id && org == Some(periods[0].orgId) then Some(periods[0].period)
    else
      assert forall p :: p in periods[1..] ==> p in periods;
      FindPeriodRow(periods[1..], id, org)
  }

  /** The first account item with the id in the organisation. */
  function FindOrgItem(items: seq<AccountItem>, id: int, org: Option<int>): (r: Option<AccountItem>)
    ensures r.Some? ==> r.value in items && r.value.id == id && org == Some(r.value.orgId)
    ensures r.None? <==> forall ai :: ai in items ==> !(ai.id == id && org == Some(ai.orgId))
  {
    if items == [] then None
    else if items[0].id == id && org == Some(items[0].orgId) then Some(items[0])
    else
      assert forall ai :: ai in items[1..] ==> ai in items;
      FindOrgItem(items[1..], id, org)
  }

  /** One line of the ledger. */
  datatype Line = Line(date: string, counterpart: string, summary: string, debit: int, credit: int, balance: int)

  /** The totals of one month ('YYYY-MM'). */
  datatype MonthTotal = MonthTotal(month: string, debitTotal: int, creditTotal: int)

  datatype View = View(opening: int, lines: seq<Line>, months: seq<MonthTotal>)

  /** What the page shows before a period and an account are chosen, or when
      either is not found. */
  const EmptyView := View(0, [], [])

  /** A posting whose counterpart account item is gone: reading its name
      fails. */
  datatype ViewError = MissingCounterpart(itemId: int)

  predicate Touches(r: LedgerRow, a: int)
  {
    r.debitItem == a || r.creditItem == a
  }

  /** The organisation's postings on the account dated before the period. */
  function EarlierRows(ledger: seq<LedgerRow>, org: Option<int>, p: Period, a: int): seq<LedgerRow>
  {
    Filter(ledger, (r: LedgerRow) => r.orgId == org && StrLess(r.date, p.start) && Touches(r, a))
  }

  function DateKey(r: LedgerRow): seq<KeyPart>
  {
    [Str(r.date)]
  }

  /** The organisation's postings on the account within the period, by date;
      postings of one day keep their table order. */
  function CurrentRows(ledger: seq<LedgerRow>, org: Option<int>, p: Period, a: int): seq<LedgerRow>
  {
    SortBy(Filter(ledger, (r: LedgerRow) => r.orgId == org && StrLessEq(p.start, r.date) && StrLessEq(r.date, p.end) && Touches(r, a)), DateKey)
  }

  /** Revenue accounts (收入) show their balances credit-positive. */
  predicate IsRevenue(ai: AccountItem)
  {
    ai.major == "收入"
  }

  // ---------------------------------------------------------------------------
  // The opening balance

  /** What an earlier posting adds before the sign is fixed: its debit
      amount when it debits the account, less its credit amount when it
      credits it (both when it does both). */
  function OpeningDelta(a: int): LedgerRow -> int
  {
    (r: LedgerRow) => (if r.debitItem == a then r.debitAmount else 0) - (if r.creditItem == a then r.creditAmount else 0)
  }

  /** The opening balance: debits less credits of the earlier postings,
      negated for a revenue account. */
  function OpeningOf(rows: seq<LedgerRow>, a: int, revenue: bool): int
  {
    var s := Sum(rows, OpeningDelta(a));
    if revenue then -s else s
  }

  method OpeningBalance(rows: seq<LedgerRow>, a: int, revenue: bool) returns (b: int)
    ensures b == OpeningOf(rows, a, revenue)
  {
    b := 0;
    var i := 0;
    while i < |rows|
      invariant 0 <= i <= |rows|
      invariant b == Sum(rows[..i], OpeningDelta(a))
    {
      TakeSnoc(rows, i);
      var r := rows[i];
      if r.debitItem == a {
        b := b + r.debitAmount;
      }
      if r.creditItem == a {
        b := b - r.creditAmount;
      }
      i := i + 1;
    }
    assert rows[..i] == rows;
    if revenue {
      b := -b;
    }
  }

  // ---------------------------------------------------------------------------
  // Postings of the period

  /** The debit column of a posting in this ledger: its debit amount when it
      debits the account. */
  function DebitPart(a: int): LedgerRow -> int
  {
    (r: LedgerRow) => if r.debitItem == a then r.debitAmount else 0
  }

  /** The credit column: the credit amount of a posting that does not debit
      the account. */
  function CreditPart(a: int): LedgerRow -> int
  {
    (r: LedgerRow) => if r.debitItem == a then 0 else r.creditAmount
  }

  /** How a posting moves the balance: debits up and credits down, the other
      way round for a revenue account. */
  function Movement(a: int, revenue: bool): LedgerRow -> int
  {
    (r: LedgerRow) => if revenue then CreditPart(a)(r) - DebitPart(a)(r) else DebitPart(a)(r) - CreditPart(a)(r)
  }

  /** The account on the other side of the posting. */
  function Counterpart(items: seq<AccountItem>, r: LedgerRow, a: int): Option<AccountItem>
  {
    FindItem(items, if r.debitItem == a then r.creditItem else r.debitItem)
  }

  /** The state of the month loop: the month being summed ("" before the
      first posting), its running totals, and the months already closed. */
  datatype MonthState = MonthState(current: string, debit: int, credit: int, months: seq<MonthTotal>)

  const NoMonths := MonthState("", 0, 0, [])

  /** A posting of `month`: a change of month closes the previous one (only
      when there is one, the empty string being false), then the posting's
      amounts join the month's totals. */
  function MonthStep(st: MonthState, month: string, d: int, c: int): MonthState
  {
    var closed :=
      if st.current != "" && st.current != month
      then MonthState(st.current, 0, 0, st.months + [MonthTotal(st.current, st.debit, st.credit)])
      else st;
    MonthState(month, closed.debit + d, closed.credit + c, closed.months)
  }

  function MonthsRun(rows: seq<LedgerRow>, a: int): MonthState
  {
    if rows == [] then NoMonths else
      var r := rows[|rows| - 1];
      MonthStep(MonthsRun(rows[..|rows| - 1], a), Prefix(r.date, 7), DebitPart(a)(r), CreditPart(a)(r))
  }

  lemma MonthsRunSnoc(rows: seq<LedgerRow>, r: LedgerRow, a: int)
    ensures MonthsRun(rows + [r], a) == MonthStep(MonthsRun(rows, a), Prefix(r.date, 7), DebitPart(a)(r), CreditPart(a)(r))
  {
    SnocFront(rows, r);
  }

  /** After the loop the last month is closed, if there is one. */
  function CloseMonths(st: MonthState): seq<MonthTotal>
  {
    if st.current != "" then st.months + [MonthTotal(st.current, st.debit, st.credit)] else st.months
  }

  /** The line of posting r: date, counterpart, summary, the two columns and
      the balance after it. */
  function LineOf(r: LedgerRow, counterpart: string, a: int, balance: int): Line
  {
    Line(r.date, counterpart, r.summary, DebitPart(a)(r), CreditPart(a)(r), balance)
  }

  /** What line k shows when its counterpart exists: the balance is the
      opening balance moved by every posting up to and including k. */
  ghost predicate LineShows(items: seq<AccountItem>, rows: seq<LedgerRow>, a: int, revenue: bool, opening: int,
                            lines: seq<Line>, k: nat)
    requires k < |rows| && k < |lines|
  {
    && Counterpart(items, rows[k], a).Some?
    && lines[k] == LineOf(rows[k], Counterpart(items, rows[k], a).value.name, a,
                          opening + Sum(rows[..k + 1], Movement(a, revenue)))
  }

  lemma LineShowsExtend(items: seq<AccountItem>, rows: seq<LedgerRow>, a: int, revenue: bool, opening: int,
                        lines: seq<Line>, lines': seq<Line>, k: nat)
    requires k < |rows| && k < |lines| <= |lines'| && lines'[..|lines|] == lines
    requires LineShows(items, rows, a, revenue, opening, lines, k)
    ensures LineShows(items, rows, a, revenue, opening, lines', k)
  {
    assert lines'[k] == lines'[..|lines|][k];
  }

  lemma LinesShowExtend(items: seq<AccountItem>, rows: seq<LedgerRow>, a: int, revenue: bool, opening: int,
                        lines: seq<Line>, lines': seq<Line>)
    requires |lines| < |rows| && |lines'| == |lines| + 1 && lines'[..|lines|] == lines
    requires forall k :: 0 <= k < |lines| ==> LineShows(items, rows, a, revenue, opening, lines, k)
    requires LineShows(items, rows, a, revenue, opening, lines', |lines|)
    ensures forall k :: 0 <= k < |lines'| ==> LineShows(items, rows, a, revenue, opening, lines', k)
  {
    forall k | 0 <= k < |lines| ensures LineShows(items, rows, a, revenue, opening, lines', k) {
      LineShowsExtend(items, rows, a, revenue, opening, lines, lines', k);
    }
  }

  /** The month bookkeeping of one posting of `month`: a change of month
      (from a month that was open) closes it and restarts the totals. */
  method MonthUpdate(st: MonthState, month: string, d: int, c: int) returns (st': MonthState)
    ensures st' == MonthStep(st, month, d, c)
  {
    var current, md, mc, months := st.current, st.debit, st.credit, st.months;
    if current != "" && current != month {
      months := months + [MonthTotal(current, md, mc)];
      md, mc := 0, 0;
    }
    current := month;
    st' := MonthState(current, md + d, mc + c, months);
  }

  /** One pass of the loop over the period's postings. */
  method WalkStep(items: seq<AccountItem>, rows: seq<LedgerRow>, a: int, revenue: bool, opening: int,
                  i: nat, running: int, st: MonthState, lines: seq<Line>)
    returns (running': int, st': MonthState, lines': seq<Line>)
    requires i < |rows| && |lines| == i
    requires Counterpart(items, rows[i], a).Some?
    requires running == opening + Sum(rows[..i], Movement(a, revenue))
    requires st == MonthsRun(rows[..i], a)
    ensures running' == opening + Sum(rows[..i + 1], Movement(a, revenue))
    ensures st' == MonthsRun(rows[..i + 1], a)
    ensures |lines'| == i + 1 && lines'[..i] == lines
    ensures LineShows(items, rows, a, revenue, opening, lines', i)
  {
    var r := rows[i];
    TakeSnoc(rows, i);
    SumSnoc(rows[..i], r, Movement(a, revenue));
    MonthsRunSnoc(rows[..i], r, a);
    var name := Counterpart(items, r, a).value.name;
    var d, c := 0, 0;
    if r.debitItem == a {
      d := r.debitAmount;
      running' := if revenue then running - d else running + d;
    } else {
      c := r.creditAmount;
      running' := if revenue then running + c else running - c;
    }
    assert d == DebitPart(a)(r) && c == CreditPart(a)(r);
    assert Movement(a, revenue)(r) == if revenue then c - d else d - c;
    st' := MonthUpdate(st, Prefix(r.date, 7), d, c);
    lines' := lines + [Line(r.date, name, r.summary, d, c, running')];
    assert lines'[i] == LineOf(r, name, a, running');
  }

  /** The loop over the period's postings: a line per posting and the monthly
      totals, or a failure at the first posting whose counterpart is gone. */
  method Walk(items: seq<AccountItem>, rows: seq<LedgerRow>, a: int, revenue: bool, opening: int)
    returns (r: Result<(seq<Line>, seq<MonthTotal>), ViewError>)
    ensures r.Err? <==> exists k :: 0 <= k < |rows| && Counterpart(items, rows[k], a).None?
    ensures r.Ok? ==> |r.value.0| == |rows|
    ensures r.Ok? ==> forall k :: 0 <= k < |rows| ==> LineShows(items, rows, a, revenue, opening, r.value.0, k)
    ensures r.Ok? ==> r.value.1 == CloseMonths(MonthsRun(rows, a))
  {
    var running := opening;
    var st := NoMonths;
    var lines: seq<Line> := [];
    var i := 0;
    while i < |rows|
      invariant 0 <= i <= |rows| && |lines| == i
      invariant running == opening + Sum(rows[..i], Movement(a, revenue))
      invariant st == MonthsRun(rows[..i], a)
      invariant forall k :: 0 <= k < i ==> LineShows(items, rows, a, revenue, opening, lines, k)
    {
      if Counterpart(items, rows[i], a).None? {
        var missing := if rows[i].debitItem == a then rows[i].creditItem else rows[i].debitItem;
        return Err(MissingCounterpart(missing));
      }
      var lines' := lines;
      running, st, lines' := WalkStep(items, rows, a, revenue, opening, i, running, st, lines);
      LinesShowExtend(items, rows, a, revenue, opening, lines, lines');
      lines := lines';
      i := i + 1;
    }
    assert rows[..i] == rows;
    forall k | 0 <= k < |rows| ensures Counterpart(items, rows[k], a).Some? {
      assert LineShows(items, rows, a, revenue, opening, lines, k);
    }
    return Ok((lines, CloseMonths(st)));
  }

  /** GET /ledger: nothing until a period and an account are chosen (ids of
      0 count as not chosen) and both are found in the organisation;
      otherwise the opening balance, the lines and the monthly totals. */
  method LedgerPage(ledger: seq<LedgerRow>, items: seq<AccountItem>, periods: seq<PeriodRow>, org: Option<int>,
                    periodId: Option<int>, itemId: Option<int>) returns (r: Result<View, ViewError>)
    ensures !(Present(periodId) && Present(itemId)) ==> r == Ok(EmptyView)
    ensures (Present(periodId) && Present(itemId) &&
             (FindPeriodRow(periods, periodId.value, org).None? || FindOrgItem(items, itemId.value, org).None?))
            ==> r == Ok(EmptyView)
    ensures (Present(periodId) && Present(itemId) &&
             FindPeriodRow(periods, periodId.value, org).Some? && FindOrgItem(items, itemId.value, org).Some?)
            ==>
        var p, ai, a := FindPeriodRow(periods, periodId.value, org).value, FindOrgItem(items, itemId.value, org).value, itemId.value;
        var rows := CurrentRows(ledger, org, p, a);
        var opening := OpeningOf(EarlierRows(ledger, org, p, a), a, IsRevenue(ai));
        && (r.Err? <==> exists k :: 0 <= k < |rows| && Counterpart(items, rows[k], a).None?)
        && (r.Ok? ==>
              && r.value.opening == opening
              && |r.value.lines| == |rows|
              && (forall k :: 0 <= k < |rows| ==> LineShows(items, rows, a, IsRevenue(ai), opening, r.value.lines, k))
              && r.value.months == CloseMonths(MonthsRun(rows, a)))
  {
    if !(Present(periodId) && Present(itemId)) {
      return Ok(EmptyView);
    }
    var period := FindPeriodRow(periods, periodId.value, org);
    var item := FindOrgItem(items, itemId.value, org);
    if period.None? || item.None? {
      return Ok(EmptyView);
    }
    var a := itemId.value;
    var revenue := item.value.major == "收入";
    assert revenue == IsRevenue(item.value);
    var opening := OpeningBalance(EarlierRows(ledger, org, period.value, a), a, revenue);
    ghost var rows := CurrentRows(ledger, org, period.value, a);
    var walked := Walk(items, CurrentRows(ledger, org, period.value, a), a, revenue, opening);
    match walked
    case Err(e) =>
      assert exists k :: 0 <= k < |rows| && Counterpart(items, rows[k], a).None?;
      return Err(e);
    case Ok(v) => return Ok(View(opening, v.0, v.1));
  }

  // ---------------------------------------------------------------------------
  // Properties of the ledger

  /** The postings of the period are listed in date order. */
  lemma CurrentRowsByDate(ledger: seq<LedgerRow>, org: Option<int>, p: Period, a: int)
    ensures var rows := CurrentRows(ledger, org, p, a);
      forall i, j :: 0 <= i < j < |rows| ==> !StrLess(rows[j].date, rows[i].date)
  {
    var rows := CurrentRows(ledger, org, p, a);
    forall i, j | 0 <= i < j < |rows| ensures !StrLess(rows[j].date, rows[i].date) {
      assert !KeyLess(DateKey(rows[j]), DateKey(rows[i]));
      assert DateKey(rows[j])[1..] == [] && DateKey(rows[i])[1..] == [];
    }
  }

  function MonthDebit(m: MonthTotal): int { m.debitTotal }
  function MonthCredit(m: MonthTotal): int { m.creditTotal }

  /** During the loop the closed months and the open month together hold
      every posting so far, and the open month is that of the last posting. */
  lemma {:induction false} MonthsRunTotals(rows: seq<LedgerRow>, a: int)
    ensures var st := MonthsRun(rows, a);
      && Sum(st.months, MonthDebit) + st.debit == Sum(rows, DebitPart(a))
      && Sum(st.months, MonthCredit) + st.credit == Sum(rows, CreditPart(a))
    ensures rows == [] ==> MonthsRun(rows, a) == NoMonths
    ensures rows != [] ==> MonthsRun(rows, a).current == Prefix(rows[|rows| - 1].date, 7)
  {
    if rows != [] {
      var n := |rows| - 1;
      var st := MonthsRun(rows[..n], a);
      MonthsRunTotals(rows[..n], a);
      if st.current != "" && st.current != Prefix(rows[n].date, 7) {
        var m := MonthTotal(st.current, st.debit, st.credit);
        SumSnoc(st.months, m, MonthDebit);
        SumSnoc(st.months, m, MonthCredit);
      }
    }
  }

  /** The monthly totals add up to the period's debit and credit columns,
      provided the last posting's date has a month (a posting dated "" is
      not closed into any month after the loop). */
  lemma MonthTotalsCoverPostings(rows: seq<LedgerRow>, a: int)
    requires rows == [] || Prefix(rows[|rows| - 1].date, 7) != ""
    ensures Sum(CloseMonths(MonthsRun(rows, a)), MonthDebit) == Sum(rows, DebitPart(a))
    ensures Sum(CloseMonths(MonthsRun(rows, a)), MonthCredit) == Sum(rows, CreditPart(a))
  {
    var st := MonthsRun(rows, a);
    MonthsRunTotals(rows, a);
    if rows != [] {
      var m := MonthTotal(st.current, st.debit, st.credit);
      SumSnoc(st.months, m, MonthDebit);
      SumSnoc(st.months, m, MonthCredit);
    }
  }

  /** The running balance moves by debits less credits (credits less debits
      for a revenue account). */
  lemma {:induction false} MovementSum(rows: seq<LedgerRow>, a: int, revenue: bool)
    ensures Sum(rows, Movement(a, revenue)) ==
      if revenue then Sum(rows, CreditPart(a)) - Sum(rows, DebitPart(a))
      else Sum(rows, DebitPart(a)) - Sum(rows, CreditPart(a))
  {
    if rows != [] {
      MovementSum(rows[..|rows| - 1], a, revenue);
    }
  }

  /** The balance after the last line is the opening balance moved by the
      monthly totals: the lines and the monthly totals agree. */
  lemma LedgerBalancesAgree(items: seq<AccountItem>, rows: seq<LedgerRow>, a: int, revenue: bool, opening: int, lines: seq<Line>)
    requires rows != [] && |lines| == |rows|
    requires Prefix(rows[|rows| - 1].date, 7) != ""
    requires LineShows(items, rows, a, revenue, opening, lines, |rows| - 1)
    ensures var months := CloseMonths(MonthsRun(rows, a));
      lines[|lines| - 1].balance == opening +
        (if revenue then Sum(months, MonthCredit) - Sum(months, MonthDebit)
         else Sum(months, MonthDebit) - Sum(months, MonthCredit))
  {
    assert rows[..|rows|] == rows;
    MovementSum(rows, a, revenue);
    MonthTotalsCoverPostings(rows, a);
  }
}
