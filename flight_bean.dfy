/**
 * FlightBean: the per-view form state behind the flight calendar page.
 * The dialog is either hidden (a blank flight, nothing selected), open on
 * a new flight (nothing selected) or open on a selected flight, which is
 * then also the flight being edited.
 */
module FlightController {
  import opened Wrappers
  import opened Models
  import opened Services
  import opened Faces
  import opened Schedule

  /** Component that receives the flight form's validation errors. */
  const FlightMessagesId := "frmFlights:msgFlight"

  /** Summaries of the messages the bean queues. */
  const LoadFailedPrefix := "Error al cargar vuelos: "
  const SavedSummary := "Vuelo guardado"
  const DeletedSummary := "Vuelo eliminado"

  /** The flight fields that have a display label. */
  const FlightFieldNames: set<string> :=
    {"flightNumber", "originIata", "destinationIata", "departure", "arrival", "passengers", "pilot", "aircraft"}

  /** Display label of a flight field for validation messages. */
  function FieldLabel(fieldName: string): (shown: string)
    ensures fieldName == "flightNumber" ==> shown == "Número de vuelo"
    ensures fieldName == "originIata" ==> shown == "Origen (IATA)"
    ensures fieldName == "destinationIata" ==> shown == "Destino (IATA)"
    ensures fieldName == "departure" ==> shown == "Salida"
    ensures fieldName == "arrival" ==> shown == "Llegada"
    ensures fieldName == "passengers" ==> shown == "Pasajeros"
    ensures fieldName == "pilot" ==> shown == "Piloto"
    ensures fieldName == "aircraft" ==> shown == "Aeronave"
    ensures shown == fieldName <==> fieldName !in FlightFieldNames
  {
    var labels := map[
      "flightNumber" := "Número de vuelo",
      "originIata" := "Origen (IATA)",
      "destinationIata" := "Destino (IATA)",
      "departure" := "Salida",
      "arrival" := "Llegada",
      "passengers" := "Pasajeros",
      "pilot" := "Piloto",
      "aircraft" := "Aeronave"];
    assert labels.Keys == FlightFieldNames;
    if fieldName in labels then labels[fieldName] else fieldName
  }

  /** How the schedule reload attempted by `init` ended. */
  datatype ReloadOutcome = Loaded | Failed(message: Option<string>)

  /** What the page shows of a FlightBean: the edited flight's values, the selection, the dialog and the calendar. */
  datatype FlightForm = FlightForm(flight: FlightFields, selected: Option<Flight>, dialogVisible: bool, schedule: seq<ScheduleEvent>)

  class FlightBean {
    const flights: FlightService
    var flight: Flight
    var selected: Flight?
    var schedule: seq<ScheduleEvent>
    var dialogVisible: bool

    /** The form is hidden on a blank flight, or shows the flight it edits. */
    ghost predicate Valid()
      reads this
    {
      && (selected != null ==> flight == selected)
      && (!dialogVisible ==> selected == null && flight.IsBlank())
    }

    ghost function Form(): FlightForm
      reads this
    {
      FlightForm(flight.Fields(), if selected == null then None else Some(selected), dialogVisible, schedule)
    }

    /** The calendar shows exactly the service's flight list. */
    ghost predicate Synced()
      reads this, flights
    {
      schedule == ScheduleOf(flights.flights)
    }

    /** Construction followed by `init`. */
    constructor Init(flights: FlightService, ctx: FacesContext?, reload: ReloadOutcome)
      requires reload.Failed? ==> ctx != null
      modifies ctx
      ensures this.flights == flights && unchanged(flights)
      ensures fresh(flight) && flight.IsBlank() && selected == null && !dialogVisible
      ensures reload == Loaded ==> Synced() && (ctx != null ==> unchanged(ctx))
      ensures reload.Failed? ==>
        && ctx != null
        && schedule == []
        && ctx.messages == old(ctx.messages)
             + [Queued(None, FacesMessage(Error, LoadFailedPrefix + Shown(reload.message), None))]
      ensures ctx != null ==> ctx.validationFailed == old(ctx.validationFailed)
      ensures Valid()
    {
      this.flights := flights;
      flight := new Flight();
      selected := null;
      schedule := [];
      dialogVisible := false;
      new;
      if reload == Loaded {
        ReloadSchedule();
      } else {
        ctx.AddMessage(None, FacesMessage(Error, LoadFailedPrefix + Shown(reload.message), None));
      }
    }

    /** Opens the dialog on a new, blank flight. */
    method NewFlight(ctx: FacesContext?)
      modifies this, ctx
      ensures ctx != null ==> ctx.messages == [] && ctx.validationFailed == old(ctx.validationFailed)
      ensures fresh(flight) && flight.IsBlank() && selected == null && dialogVisible
      ensures schedule == old(schedule)
      ensures Valid()
      ensures old(Synced()) ==> Synced()
    {
      ClearFacesMessages(ctx);
      flight := new Flight();
      selected := null;
      dialogVisible := true;
    }

    /** Selecting a calendar event whose data is a flight opens that flight for editing. */
    method OnEventSelect(event: ScheduleEvent)
      modifies this
      ensures event.data.FlightData? ==>
        && selected == event.data.flight && flight == event.data.flight && dialogVisible
        && schedule == old(schedule)
      ensures event.data.OtherData? ==> unchanged(this)
      ensures event.data.FlightData? || old(Valid()) ==> Valid()
      ensures old(Synced()) ==> Synced()
    {
      match event.data
      case FlightData(f) =>
        selected := f;
        flight := f;
        dialogVisible := true;
      case OtherData =>
    }

    /**
     * Saves the edited flight. `violations` is what the validator reports
     * for it; `stored` is the service's flight list after the write.
     */
    method Save(ctx: FacesContext, violations: seq<Violation>, stored: seq<Flight>)
      modifies this, flights, ctx
      ensures violations != [] ==>
        && ctx.messages == ErrorMessages(violations, Some(FlightMessagesId), FieldLabel)
        && ctx.validationFailed
        && unchanged(this) && unchanged(flights)
      ensures violations == [] ==>
        && flights.log == old(flights.log) + [SaveFlight(old(flight))]
        && flights.flights == stored
        && schedule == ScheduleOf(stored)
        && ctx.messages == [Queued(None, FacesMessage(Info, SavedSummary, Some(SuccessDetail)))]
        && ctx.validationFailed == old(ctx.validationFailed)
        && fresh(flight) && flight.IsBlank() && selected == null && !dialogVisible
      ensures violations == [] || old(Valid()) ==> Valid()
      ensures violations == [] || old(Synced()) ==> Synced()
    {
      ClearFacesMessages(ctx);
      if violations != [] {
        ReportViolations(ctx, violations);
        ctx.MarkValidationFailed();
        return;
      }
      flights.Save(flight, stored);
      ReloadSchedule();
      ctx.AddMessage(None, FacesMessage(Info, SavedSummary, Some(SuccessDetail)));
      flight := new Flight();
      selected := null;
      dialogVisible := false;
    }

    /** The loop of `save` that queues one field-level ERROR per violation. */
    method ReportViolations(ctx: FacesContext, violations: seq<Violation>)
      modifies ctx
      ensures ctx.messages == old(ctx.messages) + ErrorMessages(violations, Some(FlightMessagesId), FieldLabel)
      ensures ctx.validationFailed == old(ctx.validationFailed)
    {
      for i := 0 to |violations|
        invariant ctx.messages == old(ctx.messages) + ErrorMessages(violations[..i], Some(FlightMessagesId), FieldLabel)
        invariant ctx.validationFailed == old(ctx.validationFailed)
      {
        var field := violations[i].propertyPath;
        var message := violations[i].message;
        var fieldLabel := FieldLabel(field);
        ctx.AddMessage(Some(FlightMessagesId), FacesMessage(Error, fieldLabel + ": " + message, None));
      }
      assert violations[..|violations|] == violations;
    }

    /** Deletes the selected flight; does nothing at all when none is selected. */
    method ConfirmDelete(ctx: FacesContext?, stored: seq<Flight>)
      requires selected != null ==> ctx != null
      modifies this, flights, ctx
      ensures old(selected) == null ==> unchanged(this) && unchanged(flights) && (ctx != null ==> unchanged(ctx))
      ensures old(selected) != null ==>
        && ctx != null
        && flights.log == old(flights.log) + [DeleteFlight(old(selected))]
        && flights.flights == stored
        && schedule == ScheduleOf(stored)
        && ctx.messages == old(ctx.messages) + [Queued(None, FacesMessage(Info, DeletedSummary, Some(SuccessDetail)))]
        && ctx.validationFailed == old(ctx.validationFailed)
        && fresh(flight) && flight.IsBlank() && selected == null && !dialogVisible
      ensures old(selected) != null && old(Valid()) ==> flights.log == old(flights.log) + [DeleteFlight(old(flight))]
      ensures old(selected) != null || old(Valid()) ==> Valid()
      ensures old(selected) != null || old(Synced()) ==> Synced()
    {
      if selected != null {
        flights.Delete(selected, stored);
        ReloadSchedule();
        ctx.AddMessage(None, FacesMessage(Info, DeletedSummary, Some(SuccessDetail)));
        selected := null;
        flight := new Flight();
        dialogVisible := false;
      }
    }

    /** Rebuilds the calendar off to the side from the service's list, then swaps it in. */
    method ReloadSchedule()
      modifies this
      ensures Synced()
      ensures flight == old(flight) && selected == old(selected) && dialogVisible == old(dialogVisible)
    {
      var model := BuildSchedule(flights.flights);
      schedule := model;
    }

    /** The loop of `reloadSchedule`: one event per flight, appended in list order. */
    static method BuildSchedule(fs: seq<Flight>) returns (model: seq<ScheduleEvent>)
      ensures model == ScheduleOf(fs)
    {
      model := [];
      for i := 0 to |fs|
        invariant model == ScheduleOf(fs[..i])
      {
        var f := fs[i];
        var ev := ScheduleEvent(Title(f), f.departure, f.arrival, FlightData(f));
        model := model + [ev];
        assert fs[..i + 1][..i] == fs[..i];
      }
      assert fs[..|fs|] == fs;
    }

    /** Removes every queued message, one at a time through the iterator. */
    method ClearFacesMessages(ctx: FacesContext?)
      modifies ctx
      ensures ctx != null ==> ctx.messages == [] && ctx.validationFailed == old(ctx.validationFailed)
    {
      if ctx == null {
        return;
      }
      while ctx.messages != []
        invariant ctx.validationFailed == old(ctx.validationFailed)
        invariant ctx.messages == old(ctx.messages)[|old(ctx.messages)| - |ctx.messages|..]
        decreases |ctx.messages|
      {
        ctx.RemoveMessage(0);
      }
    }
  }

  /** Calling `newFlight` a second time leaves the form exactly as the first call did. */
  method NewFlightTwice(bean: FlightBean, ctx: FacesContext?)
    returns (ghost once: FlightForm, ghost twice: FlightForm)
    modifies bean, ctx
    ensures once == twice == bean.Form()
    ensures once.flight == BlankFlight && once.selected == None && once.dialogVisible
    ensures ctx != null ==> ctx.messages == []
  {
    bean.NewFlight(ctx);
    once := bean.Form();
    bean.NewFlight(ctx);
    twice := bean.Form();
  }

  /** Clicking the i-th event of a freshly reloaded calendar opens the i-th flight of the service. */
  method SelectScheduledFlight(bean: FlightBean, i: nat)
    requires bean.Synced() && i < |bean.schedule|
    modifies bean
    ensures bean.selected == bean.flight == bean.flights.flights[i] && bean.dialogVisible
    ensures bean.Valid() && bean.Synced()
  {
    bean.OnEventSelect(bean.schedule[i]);
  }
}
