/**
 * The persistence services the beans call. Each is its current list of
 * entities plus a log of the writes the beans asked for. How a write
 * changes the list (insert or update, which row goes) belongs to the
 * persistence layer, so each write takes the resulting list as an input.
 */
module Services {
  import opened Models

  datatype FlightCall = SaveFlight(flight: Flight) | DeleteFlight(flight: Flight)

  class FlightService {
    var flights: seq<Flight>
    var log: seq<FlightCall>

    constructor (stored: seq<Flight>)
      ensures flights == stored && log == []
    {
      flights := stored;
      log := [];
    }

    /** `save(f)`; `stored` is what `flights()` returns afterwards. */
    method Save(f: Flight, stored: seq<Flight>)
      modifies this
      ensures log == old(log) + [SaveFlight(f)]
      ensures flights == stored
    {
      log := log + [SaveFlight(f)];
      flights := stored;
    }

    /** `delete(f)`; `stored` is what `flights()` returns afterwards. */
    method Delete(f: Flight, stored: seq<Flight>)
      modifies this
      ensures log == old(log) + [DeleteFlight(f)]
      ensures flights == stored
    {
      log := log + [DeleteFlight(f)];
      flights := stored;
    }
  }

  datatype CatalogCall = SaveAircraft(aircraft: Aircraft) | DeleteAircraft(aircraft: Aircraft)

  class CatalogService {
    var aircraft: seq<Aircraft>
    var log: seq<CatalogCall>

    constructor (stored: seq<Aircraft>)
      ensures aircraft == stored && log == []
    {
      aircraft := stored;
      log := [];
    }

    /** `save(a)`; `stored` is what `aircraft()` returns afterwards. */
    method Save(a: Aircraft, stored: seq<Aircraft>)
      modifies this
      ensures log == old(log) + [SaveAircraft(a)]
      ensures aircraft == stored
    {
      log := log + [SaveAircraft(a)];
      aircraft := stored;
    }

    /** `delete(a)`; `stored` is what `aircraft()` returns afterwards. */
    method Delete(a: Aircraft, stored: seq<Aircraft>)
      modifies this
      ensures log == old(log) + [DeleteAircraft(a)]
      ensures aircraft == stored
    {
      log := log + [DeleteAircraft(a)];
      aircraft := stored;
    }
  }
}
