/**
 * The entities the beans handle. Only the fields the beans read are
 * modelled; the rest of each entity (passengers, pilot, seats, weight, ...)
 * is only ever looked at by the validator, which is an input here.
 */
module Models {
  import opened Wrappers

  /** A point in time; the beans copy it around and never compute with it. */
  datatype Instant = Instant(epochMillis: int)

  /** Java's `"" + s` for a String that may be null. */
  function Shown(s: Option<string>): string
  {
    match s
    case Some(text) => text
    case None => "null"
  }

  /** The values of a flight's fields, without its identity. */
  datatype FlightFields = FlightFields(
    flightNumber: Option<string>,
    originIata: Option<string>,
    destinationIata: Option<string>,
    departure: Option<Instant>,
    arrival: Option<Instant>)

  /** What `new Flight()` holds. */
  const BlankFlight := FlightFields(None, None, None, None, None)

  class Flight {
    const flightNumber: Option<string>
    const originIata: Option<string>
    const destinationIata: Option<string>
    const departure: Option<Instant>
    const arrival: Option<Instant>

    constructor ()
      ensures IsBlank()
    {
      flightNumber, originIata, destinationIata := None, None, None;
      departure, arrival := None, None;
    }

    function Fields(): FlightFields
    {
      FlightFields(flightNumber, originIata, destinationIata, departure, arrival)
    }

    predicate IsBlank()
    {
      Fields() == BlankFlight
    }
  }

  class Aircraft {
    const tailNumber: Option<string>
    const model: Option<string>

    constructor ()
      ensures IsBlank()
    {
      tailNumber, model := None, None;
    }

    predicate IsBlank()
    {
      tailNumber.None? && model.None?
    }

    /** `equals`: aircraft are identified by their tail number. */
    predicate Equals(other: Aircraft)
    {
      tailNumber == other.tailNumber
    }
  }
}
