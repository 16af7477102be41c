/** Passengers, their tracking token, and bookings (passenger x flight). */
module Passengers {
  import opened Wrappers

  /** A passenger row as the notification code reads it. */
  datatype PassengerRow = PassengerRow(
    id: nat, fullName: string, email: string, phone: string,
    trackingToken: string, preferredLanguage: string)

  /** A booking, with its passenger joined in (`select_related('passenger')`). */
  datatype Booking = Booking(
    passenger: PassengerRow, flight: nat,
    seatNumber: string, bookingRef: string, ticketStatus: string)

  const DefaultLanguage := "en"

  /** The token a save leaves: an empty token is replaced by the generated UUID text, a set one is kept. */
  function TokenOnSave(current: string, generated: string): (t: string)
    ensures current != "" ==> t == current
    ensures current == "" ==> t == generated
    ensures generated != "" ==> t != ""
  {
    if current == "" then generated else current
  }

  /** A token, once assigned, survives every later save whatever UUID those saves draw. */
  lemma TokenIsStable(current: string, g1: string, g2: string)
    requires g1 != ""
    ensures TokenOnSave(TokenOnSave(current, g1), g2) == TokenOnSave(current, g1)
  {
  }

  /** A Passenger model instance; `Save` is the overridden save() before the row is written. */
  class Passenger {
    var fullName: string
    var email: string
    var phone: string
    var trackingToken: string
    var preferredLanguage: string

    /** A new instance; an unset token is "" and an unset language takes the column default "en". */
    constructor (fullName: string, email: string, phone: string, token: Option<string>, language: Option<string>)
      ensures this.fullName == fullName && this.email == email && this.phone == phone
      ensures trackingToken == token.GetOr("")
      ensures language.None? ==> preferredLanguage == DefaultLanguage
      ensures language.Some? ==> preferredLanguage == language.value
    {
      this.fullName := fullName;
      this.email := email;
      this.phone := phone;
      this.trackingToken := token.GetOr("");
      this.preferredLanguage := language.GetOr(DefaultLanguage);
    }

    /** save(): assigns the generated UUID text to the token only when the token is empty; no other field changes. */
    method Save(generated: string)
      modifies this`trackingToken
      ensures trackingToken == TokenOnSave(old(trackingToken), generated)
      ensures old(trackingToken) != "" ==> trackingToken == old(trackingToken)
      ensures generated != "" ==> trackingToken != ""
    {
      if trackingToken == "" {
        trackingToken := generated;
      }
    }

    /** The row this instance is stored as under the given primary key. */
    function Row(id: nat): (r: PassengerRow)
      reads this
      ensures r.id == id && r.trackingToken == trackingToken && r.preferredLanguage == preferredLanguage
      ensures r.fullName == fullName && r.email == email && r.phone == phone
    {
      PassengerRow(id, fullName, email, phone, trackingToken, preferredLanguage)
    }
  }
}
