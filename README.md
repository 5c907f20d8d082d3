# airops form beans in Dafny

This project models the two JSF backing beans of the airops back-office.

- **FlightBean** is the calendar page of scheduled flights. It holds the flight being created or edited (`flight`), the flight picked on the calendar (`selected`), whether the edit dialog is shown (`dialogVisible`) and the calendar view model (`schedule`).
- **AircraftBean** is the aircraft catalogue page. It holds the aircraft being edited (`selected`), the dialog flag and a cached copy of the catalogue's aircraft list (`aircraftList`).

Each bean is a Dafny class whose methods update those fields in place. The beans' collaborators are modelled as plain state:

- The JSF message queue is a `FacesContext` object: a sequence of `(clientId, severity, summary, detail)` records plus the request's validation-failed flag.
- `FlightService` and `CatalogService` each hold their current entity list and a log of the `save`/`delete` calls the beans made.
- The validator's answer for the entity in the form is an input: a sequence of `(propertyPath, message)` violations.
- PrimeFaces schedule events are a datatype. A schedule is a sequence of events.

Files and modules:

- `wrappers.dfy`: `Option`.
- `faces.dfy` (`Faces`): messages, violations, `FacesContext`, and `ErrorMessages`, the list of messages a failed save queues.
- `models.dfy` (`Models`): `Flight`, `Aircraft` and `Instant`.
- `services.dfy` (`Services`): the two services.
- `schedule.dfy` (`Schedule`): calendar events, event titles, and `ScheduleOf`, the calendar rebuilt from a flight list, with a lemma about it.
- `flight_bean.dfy` (`FlightController`) and `aircraft_bean.dfy` (`AircraftController`): the beans, their field-label tables, and a few client methods. The client methods state properties that span several calls.

Each bean has a `Valid()` form invariant and a `Synced()` predicate:

- FlightBean `Valid()`: a selected flight is the flight being edited, and a hidden dialog means a blank flight with nothing selected.
- AircraftBean `Valid()`: there is always an aircraft in the form, and it is blank while the dialog is hidden.
- `Synced()`: the calendar or table shows exactly the service's current list.

Every modelled operation either establishes these two predicates or preserves them, with one exception: `init` after a failed reload leaves the calendar empty, and so out of sync with a non-empty service list. The setters, which are not modelled, do not preserve them.

## Model

| member | source | states |
|---|---|---|
| FlightController.FieldLabel | src/main/java/com/darwinruiz/airops/controllers/FlightBean.java:153-164 | the eight flight fields map to their fixed Spanish labels (e.g. `passengers` to `Pasajeros`); the label equals the name exactly when the name is not one of the eight |
| FlightController.FlightBean.Init | src/main/java/com/darwinruiz/airops/controllers/FlightBean.java:43-57 | `flight` is a fresh blank Flight, nothing is selected and the dialog is hidden. A successful reload leaves the calendar in sync with the service and queues nothing. A failed reload keeps the empty calendar and queues exactly one global ERROR `"Error al cargar vuelos: " + message` (`"null"` for a null message); no failure escapes |
| FlightController.FlightBean.NewFlight | src/main/java/com/darwinruiz/airops/controllers/FlightBean.java:59-65 | the message queue is emptied; `flight` is a fresh blank Flight, `selected` is null, the dialog is shown; the calendar is untouched |
| FlightController.FlightBean.OnEventSelect | src/main/java/com/darwinruiz/airops/controllers/FlightBean.java:67-75 | when the event's data is a Flight `f`, `selected` and `flight` are both that very object and the dialog is shown; for any other data no field changes |
| FlightController.FlightBean.Save | src/main/java/com/darwinruiz/airops/controllers/FlightBean.java:77-111 | with violations: the queue holds exactly one ERROR per violation addressed to `frmFlights:msgFlight`, validation is marked failed, and neither the bean nor the service changes (no save call). Without violations: exactly one `save(flight)` is logged, the calendar is rebuilt from the post-save list, the queue holds exactly one global INFO `"Vuelo guardado"`, and the form is reset and hidden |
| FlightController.FlightBean.ReportViolations | src/main/java/com/darwinruiz/airops/controllers/FlightBean.java:84-92 | appends exactly `ErrorMessages(violations, "frmFlights:msgFlight", FieldLabel)` to the queue and leaves the validation flag alone |
| FlightController.FlightBean.ConfirmDelete | src/main/java/com/darwinruiz/airops/controllers/FlightBean.java:113-126 | with nothing selected nothing changes at all (bean, service, messages); otherwise exactly one `delete(selected)` is logged, the calendar is rebuilt from the post-delete list, one global INFO `"Vuelo eliminado"` is appended to the earlier messages, and the form is reset and hidden. When the form was `Valid()`, the flight deleted is the flight that was being edited |
| FlightController.FlightBean.ReloadSchedule | src/main/java/com/darwinruiz/airops/controllers/FlightBean.java:128-140 | the calendar becomes `ScheduleOf(service list)`; the form fields are untouched |
| FlightController.FlightBean.BuildSchedule | src/main/java/com/darwinruiz/airops/controllers/FlightBean.java:130-138 | the model built off to the side, one `addEvent` per flight, is exactly `ScheduleOf(flights)`: one event per flight in list order, each with the formatted title, departure/arrival as start/end and the flight as data |
| FlightController.FlightBean.ClearFacesMessages | src/main/java/com/darwinruiz/airops/controllers/FlightBean.java:142-150 | with a context, removes messages one at a time until the queue is empty, leaving the validation flag; with no context does nothing |
| FlightController.NewFlightTwice | src/main/java/com/darwinruiz/airops/controllers/FlightBean.java:60-65 | `newFlight` is idempotent: a second call leaves the observable form (flight values, selection, dialog, calendar) identical to the first |
| FlightController.SelectScheduledFlight | src/main/java/com/darwinruiz/airops/controllers/FlightBean.java:68-75 | on a synced calendar, selecting the i-th event opens the service's i-th flight itself for editing |
| Schedule.ScheduleOf | src/main/java/com/darwinruiz/airops/controllers/FlightBean.java:129-139 | one event per flight, same count and order; event i carries the formatted title, the flight's departure and arrival as start and end, and the i-th flight as data |
| Schedule.PayloadsOfSchedule | src/main/java/com/darwinruiz/airops/controllers/FlightBean.java:136 | reading the data objects back out of a rebuilt calendar gives exactly the flight list it was built from |
| Faces.ErrorMessages | src/main/java/com/darwinruiz/airops/controllers/AircraftBean.java:69-77 | one message per violation, in iteration order, each an ERROR to the given target with summary `label + ": " + message` and no detail |
| Services.FlightService.Save | src/main/java/com/darwinruiz/airops/controllers/FlightBean.java:98 | logs exactly one save of the given flight; the list becomes what persistence reports |
| Services.FlightService.Delete | src/main/java/com/darwinruiz/airops/controllers/FlightBean.java:116 | logs exactly one delete of the given flight; the list becomes what persistence reports |
| Services.CatalogService.Save | src/main/java/com/darwinruiz/airops/controllers/AircraftBean.java:83 | logs exactly one save of the given aircraft; the list becomes what persistence reports |
| Services.CatalogService.Delete | src/main/java/com/darwinruiz/airops/controllers/AircraftBean.java:97 | logs exactly one delete of the given aircraft; the list becomes what persistence reports |
| Models.Flight.constructor | src/main/java/com/darwinruiz/airops/controllers/FlightBean.java:45 | `new Flight()` has every field unset |
| Models.Aircraft.constructor | src/main/java/com/darwinruiz/airops/controllers/AircraftBean.java:33 | `new Aircraft()` has every field unset |
| AircraftController.FieldLabel | src/main/java/com/darwinruiz/airops/controllers/AircraftBean.java:123-131 | `tailNumber`, `model`, `seats` and `maxTakeoffWeightTons` map to their fixed labels; the label equals the name exactly when the name is not one of the four |
| AircraftController.AircraftBean.Init | src/main/java/com/darwinruiz/airops/controllers/AircraftBean.java:31-36 | `selected` is a fresh blank Aircraft, the dialog is hidden, and `aircraftList` is the catalogue's current list |
| AircraftController.AircraftBean.LoadAircraftList | src/main/java/com/darwinruiz/airops/controllers/AircraftBean.java:38-41 | `aircraftList` becomes the catalogue's current list; `selected` and the dialog are unchanged |
| AircraftController.AircraftBean.NewItem | src/main/java/com/darwinruiz/airops/controllers/AircraftBean.java:48-53 | the queue is emptied, `selected` is a fresh blank Aircraft, the dialog is shown, the list is untouched |
| AircraftController.AircraftBean.Edit | src/main/java/com/darwinruiz/airops/controllers/AircraftBean.java:55-60 | the queue is emptied, `selected` is the very object `a` (not a copy), the dialog is shown |
| AircraftController.AircraftBean.Save | src/main/java/com/darwinruiz/airops/controllers/AircraftBean.java:62-93 | with violations: the queue holds exactly one global ERROR per violation, validation is marked failed, and neither the bean nor the catalogue changes (no save call). Without violations: exactly one `save(selected)` is logged, the list is reloaded, the dialog is hidden, the queue holds exactly one INFO `"Aeronave guardada"`, and `selected` is a fresh blank Aircraft |
| AircraftController.AircraftBean.ReportViolations | src/main/java/com/darwinruiz/airops/controllers/AircraftBean.java:69-77 | appends exactly `ErrorMessages(violations, global, FieldLabel)` to the queue and leaves the validation flag alone |
| AircraftController.AircraftBean.Delete | src/main/java/com/darwinruiz/airops/controllers/AircraftBean.java:95-108 | always logs exactly one `delete(a)`, reloads the list and appends one INFO `"Aeronave eliminada"` to the earlier messages. It resets `selected` and hides the dialog exactly when `selected` is non-null and equal to `a`; otherwise both are unchanged |
| AircraftController.AircraftBean.ClearFacesMessages | src/main/java/com/darwinruiz/airops/controllers/AircraftBean.java:110-120 | with a context, removes messages one at a time until the queue is empty, leaving the validation flag; with no context does nothing |
| AircraftController.NewItemTwice | src/main/java/com/darwinruiz/airops/controllers/AircraftBean.java:49-53 | `newItem` is idempotent: a second call leaves the observable form (aircraft values, dialog, list) identical to the first |
| AircraftController.EditThenDelete | src/main/java/com/darwinruiz/airops/controllers/AircraftBean.java:96-108 | deleting the aircraft being edited replaces it in the form by a new blank one and hides the dialog, so a stale reference cannot be saved again |

## Behaviour worth noting

- On a validation failure, neither `save` touches `dialogVisible`: it stays as it was.
- `confirmDelete` and `delete` do not clear earlier messages. They append exactly one INFO to whatever the queue already holds.
- `delete` decides whether `a` is the aircraft being edited with `selected != null && selected.equals(a)`, not by reference.

## Left out

- Persistence: how `save` and `delete` change the stored list (insert versus update, which rows go). Each service write takes the resulting list as an input. The model therefore states the rebuilt calendar and table in terms of that list, and nothing about its contents.
- Bean Validation rules: the constraint annotations on the entities are not part of this model. The violation set is an input. Its iteration order is taken to be the order of the input sequence, since a Java `Set` promises none.
- `Aircraft.equals`: `Aircraft.java` is not part of this model. Equality is taken as equality of tail numbers, the entity's identifier, with two unset tail numbers equal.
- Entity fields: a flight keeps only the fields FlightBean reads (flight number, origin, destination, departure and arrival). An aircraft keeps its tail number, on which `equals` is decided, and its model. AircraftBean reads neither; `model` is kept only so that `AircraftForm` can describe what the form shows. They are immutable, so the form's setters editing the shared object in place are not modelled. Passengers, pilot, aircraft, seats and weight are only read by the validator.
- Exceptions: a failing `flights()` call is modelled only at `init`, through the `ReloadOutcome` input. There it is caught and reported. Failures of `save`, `delete`, `aircraft()` and the other reloads propagate out of the beans in the source and are not modelled. `e.printStackTrace()` is left out.
- A missing `FacesContext` is tolerated only where the code tolerates it. `clearFacesMessages` checks for it, and the paths that queue no message never look it up. Every path that calls `addMessage` requires a context, because without one the call throws a NullPointerException. So both `save`s and `delete` always require one, `confirmDelete` requires one when a flight is selected, and `init` requires one when the reload fails.
- AircraftController.AircraftBean.Save: requires a non-null `selected`, because `validator.validate(null)` throws.
- The getters and setters, and the pass-through lists `getPilots`, `getAircraft` and `getFlights`: they only read or assign one field or call a service. Consequently FlightBean's `catalog` reference is not modelled. The setters do not preserve `Valid()`: `setDialogVisible(false)` after `onEventSelect` hides the dialog with a flight still selected, `setFlight` can make `flight` differ from `selected`, and AircraftBean's `setSelected(null)` leaves the form without an aircraft.
- The JSF view-scoped lifecycle, dependency injection and serialization: `init` is modelled as the bean's constructor.
- Null entities: the model's aircraft parameters and entity lists hold no null. So `edit(null)`, which clears the selection and opens the dialog, is not modelled. Neither is `delete(null)`, which passes null to the service, nor a null row from `flights()`, which throws while the calendar is built. No page of the application produces these inputs.
- Dates are opaque values. No time arithmetic is done on them.
