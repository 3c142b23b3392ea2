/** Fiscal periods (会計期間): the checks on the create and update forms, and
    the open -> closed state machine. Dates are kept as the 'YYYY-MM-DD' text
    the form sends and are compared as strings. */
module FiscalPeriods {
  import opened Common
  import opened Text

  const Open := "open"
  const Closed := "closed"
  const Individual := "individual"
  const Corporate := "corporate"

  datatype PeriodError =
    | MissingField
    | NotCalendarYear
    | DifferentYears
    | StartNotBeforeEnd
    | NoOrganisation
    | NotFound
    | AlreadyClosed

  /** The posted form; a missing business_type field is None. */
  datatype PeriodForm = PeriodForm(
    name: string, start: string, end: string, businessType: Option<string>, notes: string)

  /** The form values as the handlers read them: stripped, business type
      'corporate' when the field is missing. */
  datatype PeriodFields = PeriodFields(
    name: string, start: string, end: string, businessType: string, notes: string)

  function ReadForm(f: PeriodForm): PeriodFields
  {
    PeriodFields(Strip(f.name), Strip(f.start), Strip(f.end),
                 Strip(match f.businessType case Some(b) => b case None => Corporate), Strip(f.notes))
  }

  /** An individual's period runs from 1 January to 31 December. */
  predicate CalendarYearBounds(start: string, end: string)
  {
    EndsWith(start, "-01-01") && EndsWith(end, "-12-31")
  }

  /** The checks both forms apply, in order: the three required fields, the
      individual-business calendar-year rule, and start < end as strings. */
  function CheckPeriod(v: PeriodFields): (r: Result<(), PeriodError>)
    ensures r.Ok? <==>
      && v.name != "" && v.start != "" && v.end != ""
      && (v.businessType == Individual ==>
            CalendarYearBounds(v.start, v.end) && Prefix(v.start, 4) == Prefix(v.end, 4))
      && StrLess(v.start, v.end)
    ensures (v.name == "" || v.start == "" || v.end == "") ==> r == Err(MissingField)
  {
    if v.name == "" || v.start == "" || v.end == "" then Err(MissingField)
    else if v.businessType == Individual && !CalendarYearBounds(v.start, v.end) then Err(NotCalendarYear)
    else if v.businessType == Individual && Prefix(v.start, 4) != Prefix(v.end, 4) then Err(DifferentYears)
    else if !StrLess(v.start, v.end) then Err(StartNotBeforeEnd)
    else Ok(())
  }

  /** For dates written in full, an accepted individual period is exactly the
      calendar year of its start date. */
  lemma IndividualPeriodIsCalendarYear(v: PeriodFields)
    requires CheckPeriod(v).Ok? && v.businessType == Individual
    requires |v.start| == 10 && |v.end| == 10
    ensures v.start == v.start[..4] + "-01-01" && v.end == v.start[..4] + "-12-31"
  {
    assert v.start == v.start[..4] + v.start[4..];
    assert v.end == v.end[..4] + v.end[4..];
  }

  /** Every four-character year gives an individual period the form accepts. */
  lemma CalendarYearAccepted(name: string, year: string, notes: string)
    requires name != "" && |year| == 4
    ensures CheckPeriod(PeriodFields(name, year + "-01-01", year + "-12-31", Individual, notes)).Ok?
  {
    var start := year + "-01-01";
    var end := year + "-12-31";
    assert "-01-01"[1..] == "01-01" && "-12-31"[1..] == "12-31";
    assert StrLess("-01-01", "-12-31");
    StrLessCommonPrefix(year, "-01-01", "-12-31");
    assert start[|start| - 6..] == "-01-01";
    assert end[|end| - 6..] == "-12-31";
    assert Prefix(start, 4) == year && Prefix(end, 4) == year;
  }

  /** A period of an organisation. */
  class FiscalPeriod {
    const id: int
    const orgId: int
    var name: string
    var startDate: string
    var endDate: string
    var businessType: string
    var status: string
    var notes: string

    /** fiscal_period_create: a new period is open. */
    constructor(id: int, orgId: int, v: PeriodFields)
      ensures this.id == id && this.orgId == orgId
      ensures name == v.name && startDate == v.start && endDate == v.end
      ensures businessType == v.businessType && notes == v.notes
      ensures status == Open
    {
      this.id := id;
      this.orgId := orgId;
      name := v.name;
      startDate := v.start;
      endDate := v.end;
      businessType := v.businessType;
      notes := v.notes;
      status := Open;
    }

    /** fiscal_period_update once the period is found: the form's values
        replace name, dates, business type and notes when they pass the
        checks; the status is never touched. */
    method Update(v: PeriodFields) returns (r: Result<(), PeriodError>)
      modifies this
      ensures r == CheckPeriod(v)
      ensures status == old(status)
      ensures r.Err? ==> unchanged(this)
      ensures r.Ok? ==>
        name == v.name && startDate == v.start && endDate == v.end
        && businessType == v.businessType && notes == v.notes
    {
      r := CheckPeriod(v);
      if r.Err? {
        return;
      }
      name := v.name;
      startDate := v.start;
      endDate := v.end;
      businessType := v.businessType;
      notes := v.notes;
    }

    /** fiscal_period_close once the period is found: a closed period cannot
        be closed again; any other status becomes 'closed'. */
    method Close() returns (r: Result<(), PeriodError>)
      modifies this
      ensures r == (if old(status) == Closed then Err(AlreadyClosed) else Ok(()))
      ensures r.Err? ==> unchanged(this)
      ensures r.Ok? ==> status == Closed
      ensures name == old(name) && startDate == old(startDate)
      ensures endDate == old(endDate) && businessType == old(businessType) && notes == old(notes)
    {
      if status == Closed {
        return Err(AlreadyClosed);
      }
      status := Closed;
      return Ok(());
    }
  }

  /** The period with the id that belongs to the organisation, as the
      handlers look it up; another organisation's period is not found. */
  function FindPeriod(periods: seq<FiscalPeriod>, id: int, org: int): (r: Option<FiscalPeriod>)
    ensures r.Some? ==> r.value in periods && r.value.id == id && r.value.orgId == org
    ensures r.None? <==> forall i :: 0 <= i < |periods| ==> !(periods[i].id == id && periods[i].orgId == org)
  {
    if periods == [] then None
    else if periods[0].id == id && periods[0].orgId == org then Some(periods[0])
    else FindPeriod(periods[1..], id, org)
  }

  /** POST /fiscal-periods/create: the form is checked before the session's
      organisation is read; a session without one fails. */
  method CreatePeriod(f: PeriodForm, id: int, org: Option<int>) returns (r: Result<FiscalPeriod, PeriodError>)
    ensures CheckPeriod(ReadForm(f)).Err? ==> r == Err(CheckPeriod(ReadForm(f)).error)
    ensures CheckPeriod(ReadForm(f)).Ok? && org.None? ==> r == Err(NoOrganisation)
    ensures r.Ok? ==>
      var v := ReadForm(f);
      && fresh(r.value) && CheckPeriod(v).Ok? && org.Some?
      && r.value.status == Open && r.value.id == id && r.value.orgId == org.value
      && r.value.name == v.name && r.value.startDate == v.start && r.value.endDate == v.end
      && r.value.businessType == v.businessType && r.value.notes == v.notes
  {
    var v := ReadForm(f);
    var checked := CheckPeriod(v);
    if checked.Err? {
      return Err(checked.error);
    }
    if org.None? {
      return Err(NoOrganisation);
    }
    var p := new FiscalPeriod(id, org.value, v);
    return Ok(p);
  }

  /** POST /fiscal-periods/<id>/update. */
  method UpdatePeriod(periods: seq<FiscalPeriod>, id: int, org: int, f: PeriodForm) returns (r: Result<(), PeriodError>)
    modifies periods
    ensures FindPeriod(periods, id, org).None? ==> r == Err(NotFound) && unchanged(periods)
    ensures FindPeriod(periods, id, org).Some? ==>
      var p := FindPeriod(periods, id, org).value;
      var v := ReadForm(f);
      && r == CheckPeriod(v)
      && (r.Err? ==> unchanged(p))
      && (r.Ok? ==>
            && p.name == v.name && p.startDate == v.start && p.endDate == v.end
            && p.businessType == v.businessType && p.notes == v.notes
            && p.status == old(p.status))
    ensures forall q :: q in periods && Some(q) != FindPeriod(periods, id, org) ==> unchanged(q)
  {
    var found := FindPeriod(periods, id, org);
    if found.None? {
      return Err(NotFound);
    }
    r := found.value.Update(ReadForm(f));
  }

  /** POST /api/fiscal-periods/<id>/close. */
  method ClosePeriod(periods: seq<FiscalPeriod>, id: int, org: int) returns (r: Result<(), PeriodError>)
    modifies periods
    ensures FindPeriod(periods, id, org).None? ==> r == Err(NotFound) && unchanged(periods)
    ensures FindPeriod(periods, id, org).Some? ==>
      var p := FindPeriod(periods, id, org).value;
      && r == (if old(p.status) == Closed then Err(AlreadyClosed) else Ok(()))
      && p.status == Closed
      && p.name == old(p.name) && p.startDate == old(p.startDate) && p.endDate == old(p.endDate)
      && p.businessType == old(p.businessType) && p.notes == old(p.notes)
    ensures forall q :: q in periods && Some(q) != FindPeriod(periods, id, org) ==> unchanged(q)
  {
    var found := FindPeriod(periods, id, org);
    if found.None? {
      return Err(NotFound);
    }
    r := found.value.Close();
  }

  /** Close-once: of two successive closes of the same period at most the
      first succeeds, and the period ends closed. */
  method CloseTwice(periods: seq<FiscalPeriod>, id: int, org: int) returns (first: Result<(), PeriodError>, second: Result<(), PeriodError>)
    modifies periods
    ensures second.Err?
    ensures FindPeriod(periods, id, org).Some? ==>
      && second == Err(AlreadyClosed)
      && (first.Ok? <==> old(FindPeriod(periods, id, org).value.status) != Closed)
  {
    first := ClosePeriod(periods, id, org);
    second := ClosePeriod(periods, id, org);
  }
}
