/** The operator's flight pages: the filtered flight list, the edit form, and the passenger list. */
module FlightViews {
  import opened Wrappers
  import opened Text
  import opened Time
  import opened Sequences
  import opened Accounts
  import opened FlightModels
  import opened Passengers
  import Airports

  // ----- flights_list -----

  /** The list's query parameters; `destination` and `date` are present when their parameter is non-empty, already parsed. */
  datatype ListQuery = ListQuery(search: Option<string>, destination: Option<nat>, date: Option<int>)

  /** The flights an operator's list starts from: departing from the airport, status 'scheduled' in any case. */
  predicate ScheduledAt(airport: nat, f: Flight) {
    f.origin == airport && EqualsIgnoreCase(f.status, "scheduled")
  }

  predicate MatchesSearch(q: ListQuery, f: Flight) {
    Truthy(q.search) ==> ContainsIgnoreCase(f.flightNumber, q.search.GetOr(""))
  }

  predicate MatchesDestination(q: ListQuery, f: Flight) {
    q.destination.Some? ==> f.destination == q.destination.GetOr(0)
  }

  predicate MatchesDate(q: ListQuery, f: Flight) {
    q.date.Some? ==> DayOf(f.scheduledDeparture) == q.date.GetOr(0)
  }

  /** Whether a flight belongs on the operator's list for this query. */
  predicate Listed(airport: nat, q: ListQuery, f: Flight) {
    ScheduledAt(airport, f) && MatchesSearch(q, f) && MatchesDestination(q, f) && MatchesDate(q, f)
  }

  function Departure(f: Flight): int {
    f.scheduledDeparture
  }

  /** A narrowing step applied only when its parameter is given; it keeps departure order. */
  function NarrowIf(on: bool, s: seq<Flight>, p: Flight -> bool): (r: seq<Flight>)
    ensures forall x :: multiset(r)[x] == if !on || p(x) then multiset(s)[x] else 0
    ensures SortedBy(s, Departure) ==> SortedBy(r, Departure)
  {
    if on then
      FilterKeepsOrder(s, p, Departure);
      FilterCounts(s, p);
      Filter(s, p)
    else s
  }

  /** The airport's scheduled flights ordered by departure: the list before any narrowing. */
  function ScheduledFlights(table: seq<Flight>, airport: nat): seq<Flight> {
    SortBy(Filter(table, (f: Flight) => ScheduledAt(airport, f)), Departure)
  }

  /** The three optional narrowing steps, in the order the view applies them. */
  function Narrowed(flights: seq<Flight>, q: ListQuery): seq<Flight> {
    var bySearch := NarrowIf(Truthy(q.search), flights, (f: Flight) => ContainsIgnoreCase(f.flightNumber, q.search.GetOr("")));
    var byDestination := NarrowIf(q.destination.Some?, bySearch, (f: Flight) => f.destination == q.destination.GetOr(0));
    NarrowIf(q.date.Some?, byDestination, (f: Flight) => DayOf(f.scheduledDeparture) == q.date.GetOr(0))
  }

  /** flights_list: empty for anyone but an operator with an airport; otherwise the scheduled flights from that airport,
      ordered by departure, narrowed by flight-number search, destination and departure day when those are given. */
  function FlightsList(user: User, table: seq<Flight>, q: ListQuery): (r: seq<Flight>)
    ensures !IsAirportOperator(user) ==> r == []
    ensures IsAirportOperator(user) ==>
      && multiset(r) == multiset(Filter(table, (f: Flight) => Listed(user.airportId.value, q, f)))
      && (forall f :: f in r <==> f in table && Listed(user.airportId.value, q, f))
      && (forall i, j :: 0 <= i < j < |r| ==> r[i].scheduledDeparture <= r[j].scheduledDeparture)
      && multiset(r) <= multiset(ScheduledFlights(table, user.airportId.value))
  {
    if !IsAirportOperator(user) then []
    else
      var airport := user.airportId.value;
      FlightsListFacts(table, airport, q);
      Narrowed(ScheduledFlights(table, airport), q)
  }

  /** How often each flight survives the three narrowings: as often as before when it matches all three, else never. */
  lemma NarrowedCounts(flights: seq<Flight>, q: ListQuery, x: Flight)
    ensures multiset(Narrowed(flights, q))[x] ==
      if MatchesSearch(q, x) && MatchesDestination(q, x) && MatchesDate(q, x) then multiset(flights)[x] else 0
  {
  }

  lemma NarrowedSorted(flights: seq<Flight>, q: ListQuery)
    requires SortedBy(flights, Departure)
    ensures SortedBy(Narrowed(flights, q), Departure)
  {
  }

  /** The narrowed list is a permutation of the listed flights of the table, in departure order, within the unnarrowed list. */
  lemma FlightsListFacts(table: seq<Flight>, airport: nat, q: ListQuery)
    ensures var r := Narrowed(ScheduledFlights(table, airport), q);
      && multiset(r) == multiset(Filter(table, (f: Flight) => Listed(airport, q, f)))
      && (forall f :: f in r <==> f in table && Listed(airport, q, f))
      && SortedBy(r, Departure)
      && multiset(r) <= multiset(ScheduledFlights(table, airport))
  {
    var flights := ScheduledFlights(table, airport);
    var r := Narrowed(flights, q);
    var listed := Filter(table, (f: Flight) => Listed(airport, q, f));
    forall x ensures multiset(r)[x] == multiset(listed)[x] && multiset(r)[x] <= multiset(flights)[x] {
      NarrowedCounts(flights, q, x);
      FilterMultiplicity(table, (f: Flight) => ScheduledAt(airport, f), x);
      FilterMultiplicity(table, (f: Flight) => Listed(airport, q, f), x);
    }
    assert multiset(r) == multiset(listed);
    forall f ensures f in r <==> f in table && Listed(airport, q, f) {
      assert f in r <==> f in multiset(r);
      assert f in listed <==> f in multiset(listed);
    }
    NarrowedSorted(flights, q);
  }

  /** A row of the airport table: its primary key and its fields. */
  datatype AirportRow = AirportRow(id: nat, airport: Airports.Airport)

  function City(a: AirportRow): string {
    a.airport.city
  }

  /** Whether some scheduled flight of the airport flies to the airport with primary key d. */
  ghost predicate IsDestination(airport: nat, table: seq<Flight>, d: nat) {
    exists f :: f in table && ScheduledAt(airport, f) && f.destination == d
  }

  /** The destination choices offered on the page: the airport rows that the airport's scheduled flights fly to,
      before any narrowing, ordered by city. */
  function DestinationChoices(user: User, table: seq<Flight>, airports: seq<AirportRow>): (r: seq<AirportRow>)
    ensures !IsAirportOperator(user) ==> r == []
    ensures IsAirportOperator(user) ==>
      forall a :: multiset(r)[a] == if IsDestination(user.airportId.value, table, a.id) then multiset(airports)[a] else 0
    ensures SortedByText(r, City)
  {
    if !IsAirportOperator(user) then []
    else
      var airport := user.airportId.value;
      var dests := set f | f in Filter(table, (f: Flight) => ScheduledAt(airport, f)) :: f.destination;
      assert forall d :: d in dests <==> IsDestination(airport, table, d);
      FilterCounts(airports, (a: AirportRow) => a.id in dests);
      SortByText(Filter(airports, (a: AirportRow) => a.id in dests), City)
  }

  // ----- edit_flight -----

  /** The edit form as posted: text fields are None when absent; the departure is present when non-empty, already parsed. */
  datatype EditForm = EditForm(
    status: Option<string>, scheduledDeparture: Option<Instant>,
    gateCode: Option<string>, terminal: Option<string>,
    boardingOpen: Option<string>, boardingClose: Option<string>)

  datatype EditRequest = ViewFlight | SubmitEdit(form: EditForm)

  /** Who may open a flight's edit page: the flight must exist, then the user must be an operator with an airport, then the flight must depart from it. */
  datatype Access = NoSuchFlight | NotOperator | OtherAirport | Granted(index: nat)

  datatype EditOutcome = NotFound | RedirectHome | RedirectDenied | ShowForm(flight: Flight, gate: Option<GateAssignment>) | Saved

  function EditAccess(user: User, flights: seq<Flight>, pk: nat): (a: Access)
    ensures a.NoSuchFlight? <==> forall k :: 0 <= k < |flights| ==> flights[k].id != pk
    ensures !a.NoSuchFlight? ==> (a.NotOperator? <==> !IsAirportOperator(user))
    ensures a.OtherAirport? ==>
      IsAirportOperator(user) && exists k :: 0 <= k < |flights| && flights[k].id == pk && Some(flights[k].origin) != user.airportId
    ensures a.Granted? ==>
      && a.index < |flights| && flights[a.index].id == pk
      && IsAirportOperator(user) && Some(flights[a.index].origin) == user.airportId
    ensures UniqueIds(flights) && IsAirportOperator(user) ==>
      (a.Granted? <==> exists k :: 0 <= k < |flights| && flights[k].id == pk && Some(flights[k].origin) == user.airportId)
  {
    match FindFirst(flights, (f: Flight) => f.id == pk)
    case None => NoSuchFlight
    case Some(i) =>
      if !IsAirportOperator(user) then NotOperator
      else if Some(flights[i].origin) != user.airportId then OtherAirport
      else Granted(i)
  }

  /** A boarding time field: the posted text when non-empty, else the current time. */
  function BoardingValue(field: Option<string>, now: Instant): (v: TimeValue)
    ensures Truthy(field) ==> v == Entered(field.value)
    ensures !Truthy(field) ==> v == Clock(now)
  {
    if Truthy(field) then Entered(field.value) else Clock(now)
  }

  /** What one accepted edit does: the flight afterwards and the history and gate rows it appends. */
  datatype EditEffect = EditEffect(flight: Flight, history: seq<StatusChange>, gates: seq<GateAssignment>)

  function ApplyEdit(f: Flight, form: EditForm, now: Instant): (e: EditEffect)
    ensures |e.history| <= 1 && |e.gates| <= 1
    ensures e.history != [] <==> Truthy(form.status) && form.status.value != f.status
    ensures e.history != [] ==>
      e.history[0] == StatusChange(f.id, f.status, form.status.value, now) && e.flight.status == form.status.value
    ensures e.history == [] ==> e.flight.status == f.status
    ensures form.scheduledDeparture.Some? ==> e.flight.scheduledDeparture == form.scheduledDeparture.value
    ensures form.scheduledDeparture.None? ==> e.flight.scheduledDeparture == f.scheduledDeparture
    ensures e.flight.(status := f.status, scheduledDeparture := f.scheduledDeparture) == f
    ensures e.gates != [] <==> Truthy(form.gateCode) && Truthy(form.terminal)
    ensures e.gates != [] ==> e.gates[0] == GateAssignment(f.id, form.gateCode.value, form.terminal.value,
      BoardingValue(form.boardingOpen, now), BoardingValue(form.boardingClose, now), now, None)
  {
    var changed := Truthy(form.status) && form.status.value != f.status;
    var status := if changed then form.status.value else f.status;
    var departure := form.scheduledDeparture.GetOr(f.scheduledDeparture);
    EditEffect(
      f.(status := status, scheduledDeparture := departure),
      if changed then [StatusChange(f.id, f.status, status, now)] else [],
      if Truthy(form.gateCode) && Truthy(form.terminal) then
        [GateAssignment(f.id, form.gateCode.value, form.terminal.value,
          BoardingValue(form.boardingOpen, now), BoardingValue(form.boardingClose, now), now, None)]
      else [])
  }

  /** `GateAssignment.objects.filter(flight=flight).first()`: the earliest stored gate row of the flight. */
  function FirstGate(gates: seq<GateAssignment>, flight: nat): (g: Option<GateAssignment>)
    ensures g.Some? ==> g.value in gates && g.value.flight == flight
    ensures g.Some? ==> exists k :: 0 <= k < |gates| && gates[k] == g.value && forall j :: 0 <= j < k ==> gates[j].flight != flight
    ensures g.None? ==> forall k :: 0 <= k < |gates| ==> gates[k].flight != flight
  {
    match FindFirst(gates, (a: GateAssignment) => a.flight == flight)
    case None => None
    case Some(i) => Some(gates[i])
  }

  /** The flight, status-history and gate-assignment tables. */
  class FlightTables {
    var flights: seq<Flight>
    var history: seq<StatusChange>
    var gates: seq<GateAssignment>

    ghost predicate Valid()
      reads this
    {
      UniqueIds(flights)
    }

    constructor (flights: seq<Flight>, history: seq<StatusChange>, gates: seq<GateAssignment>)
      requires UniqueIds(flights)
      ensures Valid()
      ensures this.flights == flights && this.history == history && this.gates == gates
    {
      this.flights := flights;
      this.history := history;
      this.gates := gates;
    }

    /** edit_flight: looks the flight up, runs the guards, then either shows the form or applies the posted edit. */
    method EditFlight(user: User, pk: nat, request: EditRequest, now: Instant) returns (r: EditOutcome)
      requires Valid()
      modifies this
      ensures Valid()
      ensures var a := EditAccess(user, old(flights), pk);
        && (a.NoSuchFlight? ==> r == NotFound)
        && (a.NotOperator? ==> r == RedirectHome)
        && (a.OtherAirport? ==> r == RedirectDenied)
        && (a.Granted? && request.ViewFlight? ==> r == ShowForm(old(flights)[a.index], FirstGate(old(gates), pk)))
        && (!(a.Granted? && request.SubmitEdit?) ==>
              flights == old(flights) && history == old(history) && gates == old(gates))
        && (a.Granted? && request.SubmitEdit? ==>
              var e := ApplyEdit(old(flights)[a.index], request.form, now);
              && r == Saved
              && flights == old(flights)[a.index := e.flight]
              && history == old(history) + e.history
              && gates == old(gates) + e.gates)
    {
      var access := EditAccess(user, flights, pk);
      if access.NoSuchFlight? { return NotFound; }
      if access.NotOperator? { return RedirectHome; }
      if access.OtherAirport? { return RedirectDenied; }
      var i := access.index;
      var flight := flights[i];
      if request.ViewFlight? {
        return ShowForm(flight, FirstGate(gates, pk));
      }
      var form := request.form;
      var oldStatus := flight.status;
      if Truthy(form.status) && form.status.value != oldStatus {
        flight := flight.(status := form.status.value);
        history := history + [StatusChange(flight.id, oldStatus, form.status.value, now)];
      }
      if form.scheduledDeparture.Some? {
        flight := flight.(scheduledDeparture := form.scheduledDeparture.value);
      }
      flights := flights[i := flight];
      if Truthy(form.gateCode) && Truthy(form.terminal) {
        gates := gates + [GateAssignment(flight.id, form.gateCode.value, form.terminal.value,
          BoardingValue(form.boardingOpen, now), BoardingValue(form.boardingClose, now), now, None)];
      }
      r := Saved;
    }
  }

  /** An edit keeps the primary keys, so the table stays valid and the same flight stays reachable. */
  lemma EditKeepsIds(flights: seq<Flight>, i: nat, f: Flight, form: EditForm, now: Instant)
    requires UniqueIds(flights) && i < |flights| && flights[i] == f
    ensures UniqueIds(flights[i := ApplyEdit(f, form, now).flight])
  {
  }

  // ----- passenger_list -----

  datatype PassengerListPage = FlightMissing | BackToList | Manifest(flight: Flight, bookings: seq<Booking>)

  /** passenger_list: an operator sees the bookings of a flight departing from their airport; anyone else is sent back. */
  function PassengerList(user: User, flights: seq<Flight>, bookings: seq<Booking>, pk: nat): (p: PassengerListPage)
    ensures p.FlightMissing? <==> forall k :: 0 <= k < |flights| ==> flights[k].id != pk
    ensures p.BackToList? ==>
      || user.role != Operator
      || exists k :: 0 <= k < |flights| && flights[k].id == pk && Some(flights[k].origin) != user.airportId
    ensures p.Manifest? ==>
      && p.flight in flights && p.flight.id == pk
      && user.role == Operator && Some(p.flight.origin) == user.airportId
    ensures p.Manifest? ==> forall b :: b in p.bookings <==> b in bookings && b.flight == pk
    ensures p.Manifest? ==> forall b :: multiset(p.bookings)[b] == if b.flight == pk then multiset(bookings)[b] else 0
    ensures !p.FlightMissing? && user.role == Operator && UniqueIds(flights)
      && (forall k :: 0 <= k < |flights| && flights[k].id == pk ==> Some(flights[k].origin) == user.airportId)
      ==> p.Manifest?
  {
    match FindFirst(flights, (f: Flight) => f.id == pk)
    case None => FlightMissing
    case Some(i) =>
      var flight := flights[i];
      if user.role != Operator || Some(flight.origin) != user.airportId then BackToList
      else
        FilterCounts(bookings, (b: Booking) => b.flight == flight.id);
        Manifest(flight, Filter(bookings, (b: Booking) => b.flight == flight.id))
  }
}
