/**
 * The calendar view model: a schedule is the sequence of its events, and
 * each event carries a payload, which for the flight calendar is the
 * flight it was made from.
 */
module Schedule {
  import opened Wrappers
  import opened Models

  /** An event's data object: a Flight, or anything else (including null). */
  datatype Payload = FlightData(flight: Flight) | OtherData

  datatype ScheduleEvent = ScheduleEvent(title: string, startDate: Option<Instant>, endDate: Option<Instant>, data: Payload)

  /** "<flightNumber> • <originIata>→<destinationIata>" */
  function Title(f: Flight): string
  {
    Shown(f.flightNumber) + " • " + Shown(f.originIata) + "→" + Shown(f.destinationIata)
  }

  /** The calendar built from a flight list, one event per flight, in list order. */
  function ScheduleOf(fs: seq<Flight>): (events: seq<ScheduleEvent>)
    ensures |events| == |fs|
    ensures forall i :: 0 <= i < |fs| ==>
      && events[i].title == Title(fs[i])
      && events[i].startDate == fs[i].departure
      && events[i].endDate == fs[i].arrival
      && events[i].data == FlightData(fs[i])
  {
    if fs == [] then []
    else
      var f := fs[|fs| - 1];
      ScheduleOf(fs[..|fs| - 1]) + [ScheduleEvent(Title(f), f.departure, f.arrival, FlightData(f))]
  }

  /** The flights the events of a schedule carry, in order. */
  function Payloads(events: seq<ScheduleEvent>): seq<Flight>
  {
    if events == [] then []
    else
      var rest := Payloads(events[..|events| - 1]);
      match events[|events| - 1].data
      case FlightData(f) => rest + [f]
      case OtherData => rest
  }

  /** Reading the payloads back out of a rebuilt calendar gives the flight list it was built from. */
  lemma {:induction false} PayloadsOfSchedule(fs: seq<Flight>)
    ensures Payloads(ScheduleOf(fs)) == fs
  {
    if fs != [] {
      var events := ScheduleOf(fs);
      var n := |fs| - 1;
      assert events[..n] == ScheduleOf(fs[..n]);
      PayloadsOfSchedule(fs[..n]);
      assert fs == fs[..n] + [fs[n]];
    }
  }
}
