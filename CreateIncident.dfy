/** The create-incident page: the form's starting values, the flight-number
    and airline handlers with their one-shot auto-fill, the manual
    checkboxes, and the submit handler that hands the form to the store. */
module CreateIncident {
  import opened IncidentTypes
  import opened JsText
  import opened IncidentContext
  import ManualSelectionSection

  /** The form's values when the page opens; `nowIso` is the current time as
      an ISO 8601 timestamp. */
  function DefaultFormValues(nowIso: string): (v: IncidentFormData)
    ensures 'T' !in v.date && StartsWith(nowIso, v.date)
    ensures |v.date| < |nowIso| ==> nowIso[|v.date|] == 'T'
    ensures v.airline == "" && v.arrivingAirport == "" && v.departureAirport == ""
            && v.incident == "" && v.investigation == "" && v.eventNumber == ""
            && v.baseIATA == "" && v.registration == "" && v.flightNumber == ""
            && v.attachments == [] && v.selectedManuals == [] && v.reportType == Quality
  {
    IncidentFormData(BeforeFirstT(nowIso), "", "", "", "", "", [], "", "", "", "", Quality, [])
  }

  /** The date field starts as the date part of the current timestamp; every
      other text field, the files and the manual selection start empty, and
      the report type starts as quality. */
  lemma DefaultFormValuesAre(day: string, time: string)
    requires 'T' !in day
    ensures var v := DefaultFormValues(day + "T" + time);
            && v.date == day
            && v.airline == "" && v.arrivingAirport == "" && v.departureAirport == ""
            && v.incident == "" && v.investigation == "" && v.eventNumber == ""
            && v.baseIATA == "" && v.registration == "" && v.flightNumber == ""
            && v.attachments == [] && v.selectedManuals == [] && v.reportType == Quality
  {
    BeforeFirstTOfTimestamp(day, time);
  }

  /** The four fields the auto-fill writes. */
  function AutoFilled(v: IncidentFormData): (r: IncidentFormData)
    ensures r.departureAirport == "BOG" && r.arrivingAirport == "MDE"
            && r.registration == "HK-4321" && r.baseIATA == "BOG"
    ensures r.date == v.date && r.airline == v.airline && r.incident == v.incident
            && r.investigation == v.investigation && r.attachments == v.attachments
            && r.eventNumber == v.eventNumber && r.flightNumber == v.flightNumber
            && r.reportType == v.reportType && r.selectedManuals == v.selectedManuals
  {
    v.(departureAirport := "BOG", arrivingAirport := "MDE", registration := "HK-4321", baseIATA := "BOG")
  }

  /** The page's state: the form values, the `autoFillTriggered` flag, and how
      many auto-fill timers have been scheduled and have not fired yet. */
  datatype FormState = FormState(values: IncidentFormData, autoFillTriggered: bool, pendingAutoFills: nat)

  function InitialState(nowIso: string): FormState {
    FormState(DefaultFormValues(nowIso), false, 0)
  }

  /** What can happen on the page: the user edits the flight number or the
      airline or ticks a manual, or a scheduled auto-fill timer fires. */
  datatype FormEvent =
    | FlightNumberChanged(flightNumber: string)
    | AirlineChanged(airline: string)
    | ManualCheckedChanged(manualId: string, checked: bool)
    | AutoFillFired

  /** A flight-number change schedules an auto-fill when the new flight number
      and the current airline are both non-empty and no fill has happened
      since the airline last changed. */
  predicate SchedulesAutoFill(st: FormState, flightNumber: string) {
    flightNumber != "" && st.values.airline != "" && !st.autoFillTriggered
  }

  /** The page's state after one event. A timer fires only when one is
      pending; with none pending nothing happens. */
  function Step(st: FormState, e: FormEvent): (st': FormState)
    ensures e.FlightNumberChanged? ==>
              && st'.values == st.values.(flightNumber := e.flightNumber)
              && st'.autoFillTriggered == st.autoFillTriggered
              && (st'.pendingAutoFills == st.pendingAutoFills + 1 <==> SchedulesAutoFill(st, e.flightNumber))
              && (st'.pendingAutoFills == st.pendingAutoFills <==> !SchedulesAutoFill(st, e.flightNumber))
    ensures e.AirlineChanged? ==>
              && st'.values == st.values.(airline := e.airline)
              && !st'.autoFillTriggered
              && st'.pendingAutoFills == st.pendingAutoFills
    ensures e.ManualCheckedChanged? ==>
              && st'.values.selectedManuals ==
                   ManualSelectionSection.OnCheckedChange(Some(st.values.selectedManuals), e.manualId, e.checked)
              && st'.values == st.values.(selectedManuals := st'.values.selectedManuals)
              && st'.autoFillTriggered == st.autoFillTriggered
              && st'.pendingAutoFills == st.pendingAutoFills
    ensures e.AutoFillFired? && st.pendingAutoFills > 0 ==>
              && st'.values.departureAirport == "BOG" && st'.values.arrivingAirport == "MDE"
              && st'.values.registration == "HK-4321" && st'.values.baseIATA == "BOG"
              && st'.values == AutoFilled(st.values)
              && st'.autoFillTriggered
              && st'.pendingAutoFills == st.pendingAutoFills - 1
    ensures e.AutoFillFired? && st.pendingAutoFills == 0 ==> st' == st
  {
    match e
    case FlightNumberChanged(f) =>
      var scheduled := SchedulesAutoFill(st, f);
      FormState(st.values.(flightNumber := f), st.autoFillTriggered,
                if scheduled then st.pendingAutoFills + 1 else st.pendingAutoFills)
    case AirlineChanged(a) =>
      FormState(st.values.(airline := a), false, st.pendingAutoFills)
    case ManualCheckedChanged(id, checked) =>
      var selection := ManualSelectionSection.OnCheckedChange(Some(st.values.selectedManuals), id, checked);
      FormState(st.values.(selectedManuals := selection), st.autoFillTriggered, st.pendingAutoFills)
    case AutoFillFired =>
      if st.pendingAutoFills == 0 then st
      else FormState(AutoFilled(st.values), true, st.pendingAutoFills - 1)
  }

  /** The state after a sequence of events, applied in order. */
  function Run(st: FormState, es: seq<FormEvent>): FormState
    decreases |es|
  {
    if es == [] then st else Run(Step(st, es[0]), es[1..])
  }

  predicate NoAirlineChange(es: seq<FormEvent>) {
    forall i :: 0 <= i < |es| ==> !es[i].AirlineChanged?
  }

  /** Once a fill has happened, no further fill is scheduled until the
      airline changes: the flag stays set and the pending timers only run
      down. */
  lemma {:induction false} FilledStaysFilledUntilAirlineChanges(st: FormState, es: seq<FormEvent>)
    requires st.autoFillTriggered && NoAirlineChange(es)
    ensures Run(st, es).autoFillTriggered
    ensures Run(st, es).pendingAutoFills <= st.pendingAutoFills
    decreases |es|
  {
    if es != [] {
      assert !es[0].AirlineChanged?;
      assert NoAirlineChange(es[1..]) by {
        forall i | 0 <= i < |es[1..]| ensures !es[1..][i].AirlineChanged? {
          assert es[1..][i] == es[i + 1];
        }
      }
      FilledStaysFilledUntilAirlineChanges(Step(st, es[0]), es[1..]);
    }
  }

  /** After the airline changes to a non-empty value, a non-empty flight
      number schedules the fill again, whatever happened before. */
  lemma AirlineChangeReenablesAutoFill(st: FormState, airline: string, flightNumber: string)
    requires airline != "" && flightNumber != ""
    ensures Run(st, [AirlineChanged(airline), FlightNumberChanged(flightNumber)]).pendingAutoFills
              == st.pendingAutoFills + 1
  {
    var es := [AirlineChanged(airline), FlightNumberChanged(flightNumber)];
    var s1 := Step(st, es[0]);
    assert SchedulesAutoFill(s1, flightNumber);
    assert es[1..] == [FlightNumberChanged(flightNumber)];
    assert Run(st, es) == Run(s1, es[1..]);
    assert Run(s1, es[1..]) == Run(Step(s1, es[1]), []);
  }

  /** Entering an airline and a flight number on a fresh page and letting the
      timer fire fills the four fields and sets the flag. */
  lemma AutoFillScenario(nowIso: string, airline: string, flightNumber: string)
    requires airline != "" && flightNumber != ""
    ensures var st := Run(InitialState(nowIso),
                          [AirlineChanged(airline), FlightNumberChanged(flightNumber), AutoFillFired]);
            && st.values.airline == airline && st.values.flightNumber == flightNumber
            && st.values.departureAirport == "BOG" && st.values.arrivingAirport == "MDE"
            && st.values.registration == "HK-4321" && st.values.baseIATA == "BOG"
            && st.autoFillTriggered && st.pendingAutoFills == 0
  {
    var es := [AirlineChanged(airline), FlightNumberChanged(flightNumber), AutoFillFired];
    var s0 := InitialState(nowIso);
    var s1 := Step(s0, es[0]);
    var s2 := Step(s1, es[1]);
    assert es[1..][1..] == [AutoFillFired];
    assert Run(s0, es) == Run(s2, [AutoFillFired]);
  }

  /** The route the page navigates to after creating the record with `id`. */
  function ReviewPath(id: string): (path: string)
    ensures StartsWith(path, "/review-incident/") && path[|"/review-incident/"|..] == id
  {
    "/review-incident/" + id
  }

  class CreateIncidentPage {
    var values: IncidentFormData
    var autoFillTriggered: bool
    var pendingAutoFills: nat

    function State(): FormState
      reads this
    {
      FormState(values, autoFillTriggered, pendingAutoFills)
    }

    constructor (nowIso: string)
      ensures State() == InitialState(nowIso)
    {
      values := DefaultFormValues(nowIso);
      autoFillTriggered := false;
      pendingAutoFills := 0;
    }

    /** `handleFlightNumberChange`: store the flight number and, when the
        fill is due, schedule a timer (modelled as one more pending fill). */
    method HandleFlightNumberChange(value: string)
      modifies this
      ensures State() == Step(old(State()), FlightNumberChanged(value))
    {
      values := values.(flightNumber := value);
      if value != "" && values.airline != "" && !autoFillTriggered {
        pendingAutoFills := pendingAutoFills + 1;
      }
    }

    /** The timer callback that `handleFlightNumberChange` schedules. */
    method FireAutoFill()
      requires pendingAutoFills > 0
      modifies this
      ensures State() == Step(old(State()), AutoFillFired)
    {
      values := values.(departureAirport := "BOG");
      values := values.(arrivingAirport := "MDE");
      values := values.(registration := "HK-4321");
      values := values.(baseIATA := "BOG");
      autoFillTriggered := true;
      pendingAutoFills := pendingAutoFills - 1;
    }

    /** `handleAirlineChange`: store the airline and clear the flag. A timer
        already scheduled is not cancelled. */
    method HandleAirlineChange(value: string)
      modifies this
      ensures State() == Step(old(State()), AirlineChanged(value))
    {
      values := values.(airline := value);
      if autoFillTriggered {
        autoFillTriggered := false;
      }
    }

    /** A manual checkbox changed: the form field takes the toggled list. */
    method HandleManualCheckedChange(manualId: string, checked: bool)
      modifies this
      ensures State() == Step(old(State()), ManualCheckedChanged(manualId, checked))
    {
      var selection := ManualSelectionSection.OnCheckedChange(Some(values.selectedManuals), manualId, checked);
      values := values.(selectedManuals := selection);
    }

    /** `onSubmit`: add the form's values to the store and return the review
        route of the new record. The caller supplies what `addIncident` takes
        from the browser: the random id, the time and the file URLs. */
    method OnSubmit(store: IncidentStore, newId: string, now: string, urls: seq<string>)
      returns (path: string)
      requires |urls| == |values.attachments|
      modifies store
      ensures store.incidents == [NewIncident(values, newId, now, urls)] + old(store.incidents)
      ensures store.GetIncidentById(newId) == Some(NewIncident(values, newId, now, urls))
      ensures path == ReviewPath(newId)
    {
      var incidentId := store.AddIncident(values, newId, now, urls);
      path := ReviewPath(incidentId);
    }
  }
}
