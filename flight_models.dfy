/** Flights, their status history and their gate assignments. */
module FlightModels {
  import opened Wrappers
  import opened Time

  /** A flight; origin and destination are airport primary keys. */
  datatype Flight = Flight(
    id: nat, flightNumber: string, status: string,
    scheduledDeparture: Instant, scheduledArrival: Instant, airlineCode: string,
    origin: nat, destination: nat)

  /** A datetime attribute as code holding the instance sees it: the text a form sent, or a datetime object. */
  datatype TimeValue = Entered(text: string) | Clock(at: Instant)

  datatype GateAssignment = GateAssignment(
    flight: nat, gateCode: string, terminal: string,
    boardingOpen: TimeValue, boardingClose: TimeValue,
    assignedAt: Instant, releasedAt: Option<Instant>)

  /** One row of the status audit trail: the status before and after, and when. */
  datatype StatusChange = StatusChange(flight: nat, oldStatus: string, newStatus: string, changedAt: Instant)

  /** Primary keys are unique in the flight table. */
  ghost predicate UniqueIds(flights: seq<Flight>) {
    forall i, j :: 0 <= i < j < |flights| ==> flights[i].id != flights[j].id
  }
}
