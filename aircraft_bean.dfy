/**
 * AircraftBean: the per-view form state behind the aircraft catalogue
 * page. It caches the catalogue's aircraft list for the table and holds
 * the aircraft the dialog edits, which is blank while the dialog is hidden.
 */
module AircraftController {
  import opened Wrappers
  import opened Models
  import opened Services
  import opened Faces

  /** Summaries of the messages the bean queues. */
  const SavedSummary := "Aeronave guardada"
  const DeletedSummary := "Aeronave eliminada"

  /** The aircraft fields that have a display label. */
  const AircraftFieldNames: set<string> := {"tailNumber", "model", "seats", "maxTakeoffWeightTons"}

  /** Display label of an aircraft field for validation messages. */
  function FieldLabel(fieldName: string): (shown: string)
    ensures fieldName == "tailNumber" ==> shown == "Matrícula (Tail Number)"
    ensures fieldName == "model" ==> shown == "Modelo"
    ensures fieldName == "seats" ==> shown == "Asientos"
    ensures fieldName == "maxTakeoffWeightTons" ==> shown == "Peso máximo de despegue (toneladas)"
    ensures shown == fieldName <==> fieldName !in AircraftFieldNames
  {
    var labels := map[
      "tailNumber" := "Matrícula (Tail Number)",
      "model" := "Modelo",
      "seats" := "Asientos",
      "maxTakeoffWeightTons" := "Peso máximo de despegue (toneladas)"];
    assert labels.Keys == AircraftFieldNames;
    if fieldName in labels then labels[fieldName] else fieldName
  }

  /** What the page shows of an AircraftBean: the edited aircraft's values, the dialog and the table. */
  datatype AircraftForm = AircraftForm(tailNumber: Option<string>, model: Option<string>, dialogVisible: bool, aircraftList: seq<Aircraft>)

  class AircraftBean {
    const service: CatalogService
    var selected: Aircraft?
    var dialogVisible: bool
    var aircraftList: seq<Aircraft>

    /** There is always an aircraft in the form, and it is blank while the dialog is hidden. */
    ghost predicate Valid()
      reads this
    {
      selected != null && (!dialogVisible ==> selected.IsBlank())
    }

    ghost function Form(): AircraftForm
      reads this
      requires selected != null
    {
      AircraftForm(selected.tailNumber, selected.model, dialogVisible, aircraftList)
    }

    /** The table shows exactly the catalogue's aircraft list. */
    ghost predicate Synced()
      reads this, service
    {
      aircraftList == service.aircraft
    }

    /** Construction followed by `init`. */
    constructor Init(service: CatalogService)
      ensures this.service == service && unchanged(service)
      ensures fresh(selected) && selected.IsBlank() && !dialogVisible
      ensures aircraftList == service.aircraft
      ensures Valid() && Synced()
    {
      this.service := service;
      selected := new Aircraft();
      dialogVisible := false;
      new;
      LoadAircraftList();
    }

    /** Replaces the cached list with the catalogue's current one. */
    method LoadAircraftList()
      modifies this
      ensures aircraftList == service.aircraft
      ensures selected == old(selected) && dialogVisible == old(dialogVisible)
    {
      aircraftList := service.aircraft;
    }

    /** Opens the dialog on a new, blank aircraft. */
    method NewItem(ctx: FacesContext?)
      modifies this, ctx
      ensures ctx != null ==> ctx.messages == [] && ctx.validationFailed == old(ctx.validationFailed)
      ensures fresh(selected) && selected.IsBlank() && dialogVisible
      ensures aircraftList == old(aircraftList)
      ensures Valid()
      ensures old(Synced()) ==> Synced()
    {
      ClearFacesMessages(ctx);
      selected := new Aircraft();
      dialogVisible := true;
    }

    /** Opens the dialog on `a` itself, not on a copy of it. */
    method Edit(ctx: FacesContext?, a: Aircraft)
      modifies this, ctx
      ensures ctx != null ==> ctx.messages == [] && ctx.validationFailed == old(ctx.validationFailed)
      ensures selected == a && dialogVisible
      ensures aircraftList == old(aircraftList)
      ensures Valid()
      ensures old(Synced()) ==> Synced()
    {
      ClearFacesMessages(ctx);
      selected := a;
      dialogVisible := true;
    }

    /**
     * Saves the aircraft in the form. `violations` is what the validator
     * reports for it; `stored` is the catalogue's list after the write.
     */
    method Save(ctx: FacesContext, violations: seq<Violation>, stored: seq<Aircraft>)
      requires selected != null // holds whenever Valid() does
      modifies this, service, ctx
      ensures violations != [] ==>
        && ctx.messages == ErrorMessages(violations, None, FieldLabel)
        && ctx.validationFailed
        && unchanged(this) && unchanged(service)
      ensures violations == [] ==>
        && service.log == old(service.log) + [SaveAircraft(old(selected))]
        && service.aircraft == stored
        && aircraftList == stored
        && ctx.messages == [Queued(None, FacesMessage(Info, SavedSummary, Some(SuccessDetail)))]
        && ctx.validationFailed == old(ctx.validationFailed)
        && fresh(selected) && selected.IsBlank() && !dialogVisible
      ensures violations == [] || old(Valid()) ==> Valid()
      ensures violations == [] || old(Synced()) ==> Synced()
    {
      ClearFacesMessages(ctx);
      if violations != [] {
        ReportViolations(ctx, violations);
        ctx.MarkValidationFailed();
        return;
      }
      service.Save(selected, stored);
      LoadAircraftList();
      dialogVisible := false;
      ctx.AddMessage(None, FacesMessage(Info, SavedSummary, Some(SuccessDetail)));
      selected := new Aircraft();
    }

    /** The loop of `save` that queues one global ERROR per violation. */
    method ReportViolations(ctx: FacesContext, violations: seq<Violation>)
      modifies ctx
      ensures ctx.messages == old(ctx.messages) + ErrorMessages(violations, None, FieldLabel)
      ensures ctx.validationFailed == old(ctx.validationFailed)
    {
      for i := 0 to |violations|
        invariant ctx.messages == old(ctx.messages) + ErrorMessages(violations[..i], None, FieldLabel)
        invariant ctx.validationFailed == old(ctx.validationFailed)
      {
        var field := violations[i].propertyPath;
        var message := violations[i].message;
        var fieldLabel := FieldLabel(field);
        ctx.AddMessage(None, FacesMessage(Error, fieldLabel + ": " + message, None));
      }
      assert violations[..|violations|] == violations;
    }

    /**
     * Deletes `a`. The form is reset only when it was editing an aircraft
     * equal to `a`; earlier messages are kept.
     */
    method Delete(ctx: FacesContext, a: Aircraft, stored: seq<Aircraft>)
      modifies this, service, ctx
      ensures service.log == old(service.log) + [DeleteAircraft(a)]
      ensures service.aircraft == stored && aircraftList == stored
      ensures ctx.messages == old(ctx.messages) + [Queued(None, FacesMessage(Info, DeletedSummary, None))]
      ensures ctx.validationFailed == old(ctx.validationFailed)
      ensures old(selected) != null && old(selected).Equals(a) ==>
        fresh(selected) && selected.IsBlank() && !dialogVisible
      ensures !(old(selected) != null && old(selected).Equals(a)) ==>
        selected == old(selected) && dialogVisible == old(dialogVisible)
      ensures old(Valid()) ==> Valid()
      ensures Synced()
    {
      service.Delete(a, stored);
      LoadAircraftList();
      ctx.AddMessage(None, FacesMessage(Info, DeletedSummary, None));
      if selected != null && selected.Equals(a) {
        selected := new Aircraft();
        dialogVisible := false;
      }
    }

    /** Removes every queued message, one at a time through the iterator. */
    method ClearFacesMessages(ctx: FacesContext?)
      modifies ctx
      ensures ctx != null ==> ctx.messages == [] && ctx.validationFailed == old(ctx.validationFailed)
    {
      if ctx == null {
        return;
      }
      while ctx.messages != []
        invariant ctx.validationFailed == old(ctx.validationFailed)
        invariant ctx.messages == old(ctx.messages)[|old(ctx.messages)| - |ctx.messages|..]
        decreases |ctx.messages|
      {
        ctx.RemoveMessage(0);
      }
    }
  }

  /** Calling `newItem` a second time leaves the form exactly as the first call did. */
  method NewItemTwice(bean: AircraftBean, ctx: FacesContext?)
    returns (ghost once: AircraftForm, ghost twice: AircraftForm)
    modifies bean, ctx
    ensures bean.selected != null && once == twice == bean.Form()
    ensures once.tailNumber == None && once.model == None && once.dialogVisible
    ensures ctx != null ==> ctx.messages == []
  {
    bean.NewItem(ctx);
    once := bean.Form();
    bean.NewItem(ctx);
    twice := bean.Form();
  }

  /** Deleting the aircraft being edited closes the dialog, so it cannot be saved again. */
  method EditThenDelete(bean: AircraftBean, ctx: FacesContext, a: Aircraft, stored: seq<Aircraft>)
    modifies bean, bean.service, ctx
    ensures bean.selected != null && bean.selected != a && bean.selected.IsBlank() && !bean.dialogVisible
    ensures bean.Valid() && bean.Synced()
    ensures ctx.messages == [Queued(None, FacesMessage(Info, DeletedSummary, None))]
  {
    bean.Edit(ctx, a);
    bean.Delete(ctx, a, stored);
  }
}
