/** The role-tagged user the views check. Only the fields the views read are modelled. */
module Accounts {
  import opened Wrappers

  datatype User = User(id: nat, role: string, airportId: Option<nat>)

  const Operator := "operator"
  const AirportAdmin := "airport_admin"

  /** `request.user.airport_id` is truthy: an affiliation is set and it is not 0. */
  predicate HasAirport(u: User) {
    u.airportId.Some? && u.airportId.value != 0
  }

  /** The guard shared by the operator pages: role operator and an airport affiliation. */
  predicate IsAirportOperator(u: User) {
    u.role == Operator && HasAirport(u)
  }
}
