/** Passenger notifications sent after rows are saved: the per-flight fan-out, its three triggers, and the texts they use. */
module Signals {
  import opened Wrappers
  import opened Text
  import opened Time
  import opened Sequences
  import opened Passengers
  import opened FlightModels
  import opened Airports

  // ----- tracking links -----

  const TrackingPrefix := "http://127.0.0.1:8000/passengers/track/"

  /** The passenger's tracking page: the fixed site prefix, the token, a closing slash. */
  function TrackingUrl(token: string): (u: string)
    ensures |u| == |TrackingPrefix| + |token| + 1
    ensures u[..|TrackingPrefix|] == TrackingPrefix
    ensures u[|TrackingPrefix|..|u| - 1] == token
    ensures u[|u| - 1] == '/'
  {
    TrackingPrefix + token + "/"
  }

  /** The token a tracking page names, read back from its address. */
  function TokenOfUrl(u: string): (t: Option<string>)
    ensures t.Some? <==> |u| > |TrackingPrefix| && u[..|TrackingPrefix|] == TrackingPrefix && u[|u| - 1] == '/'
    ensures t.Some? ==> t.value == u[|TrackingPrefix|..|u| - 1]
  {
    if |u| > |TrackingPrefix| && u[..|TrackingPrefix|] == TrackingPrefix && u[|u| - 1] == '/' then
      Some(u[|TrackingPrefix|..|u| - 1])
    else None
  }

  lemma TrackingUrlRoundTrip(token: string)
    ensures TokenOfUrl(TrackingUrl(token)) == Some(token)
  {
  }

  lemma TokenOfUrlRoundTrip(u: string)
    requires TokenOfUrl(u).Some?
    ensures TrackingUrl(TokenOfUrl(u).value) == u
  {
    var t := TokenOfUrl(u).value;
    assert u == u[..|TrackingPrefix|] + u[|TrackingPrefix|..|u| - 1] + [u[|u| - 1]];
  }

  /** Distinct tokens give distinct tracking pages. */
  lemma TrackingUrlInjective(a: string, b: string)
    requires TrackingUrl(a) == TrackingUrl(b)
    ensures a == b
  {
    TrackingUrlRoundTrip(a);
    TrackingUrlRoundTrip(b);
  }

  // ----- language and texts -----

  datatype Language = Arabic | English

  /** Exactly the preference "ar" reads Arabic; every other value, the empty one included, reads English. */
  function LanguageOf(preference: string): (l: Language)
    ensures l == Arabic <==> preference == "ar"
  {
    if preference == "ar" then Arabic else English
  }

  /** What a notification says, in both languages. */
  datatype Update = Update(titleEn: string, descriptionEn: string, titleAr: string, descriptionAr: string)

  /** The words of a status-change notification; each of the four texts names the new status. */
  function StatusUpdate(newStatus: string): (u: Update)
    ensures Contains(u.titleEn, newStatus) && Contains(u.descriptionEn, newStatus)
    ensures Contains(u.titleAr, newStatus) && Contains(u.descriptionAr, newStatus)
  {
    var u := Update(
      "Status Changed to " + newStatus,
      "The flight status has been updated to " + newStatus + ".",
      "تغيرت الحالة إلى " + newStatus,
      "تم تحديث حالة الرحلة إلى " + newStatus + ".");
    ContainsMiddle("Status Changed to ", newStatus, "");
    assert "Status Changed to " + newStatus + "" == u.titleEn;
    ContainsMiddle("The flight status has been updated to ", newStatus, ".");
    ContainsMiddle("تغيرت الحالة إلى ", newStatus, "");
    assert "تغيرت الحالة إلى " + newStatus + "" == u.titleAr;
    ContainsMiddle("تم تحديث حالة الرحلة إلى ", newStatus, ".");
    u
  }

  const GateTitleEn := "Gate Information Updated"
  const GateTitleAr := "تحديث معلومات البوابة"

  /** The words of a gate notification: fixed titles, and descriptions naming the gate, the terminal and the boarding time. */
  function GateUpdate(gateCode: string, terminal: string, boarding: string): (u: Update)
    ensures u.titleEn == GateTitleEn && u.titleAr == GateTitleAr
    ensures Contains(u.descriptionEn, gateCode) && Contains(u.descriptionEn, terminal) && Contains(u.descriptionEn, boarding)
    ensures Contains(u.descriptionAr, gateCode) && Contains(u.descriptionAr, terminal) && Contains(u.descriptionAr, boarding)
  {
    var en := "Gate: " + gateCode + ", Terminal: " + terminal + ". Boarding at " + boarding + ".";
    var ar := "البوابة: " + gateCode + "، الصالة: " + terminal + ". الصعود في " + boarding + ".";
    NamesAllThree("Gate: ", gateCode, ", Terminal: ", terminal, ". Boarding at ", boarding, ".");
    NamesAllThree("البوابة: ", gateCode, "، الصالة: ", terminal, ". الصعود في ", boarding, ".");
    Update(GateTitleEn, en, GateTitleAr, ar)
  }

  /** A text assembled around three pieces contains each of them. */
  lemma NamesAllThree(a: string, x: string, b: string, y: string, c: string, z: string, d: string)
    ensures var s := a + x + b + y + c + z + d;
      Contains(s, x) && Contains(s, y) && Contains(s, z)
  {
    var s := a + x + b + y + c + z + d;
    ContainsMiddle(a, x, b + y + c + z + d);
    assert a + x + (b + y + c + z + d) == s;
    ContainsMiddle(a + x + b, y, c + z + d);
    assert a + x + b + y + (c + z + d) == s;
    ContainsMiddle(a + x + b + y + c, z, d);
  }

  // ----- boarding time as displayed -----

  /** `s.split(c)[-1]`: the text after the last c, or all of s when c does not occur. */
  function AfterLast(s: string, c: char): (r: string)
    ensures |r| <= |s| && r == s[|s| - |r|..]
    ensures c !in r
    ensures |r| < |s| ==> s[|s| - |r| - 1] == c
  {
    if s == [] then []
    else if s[|s| - 1] == c then []
    else
      var r := AfterLast(s[..|s| - 1], c);
      assert s[..|s| - 1][|s| - 1 - |r|..] == s[|s| - 1 - |r|..|s| - 1];
      r + [s[|s| - 1]]
  }

  /** The boarding time shown in a gate notification: a datetime as `%H:%M`, a text as at most five characters after its last 'T'. */
  function BoardingTimeText(v: TimeValue): (r: string)
    ensures v.Clock? ==> r == ClockText(v.at)
    ensures v.Entered? ==>
      var tail := AfterLast(v.text, 'T');
      && |r| == (if |tail| < 5 then |tail| else 5)
      && r == tail[..|r|]
      && 'T' !in r
  {
    match v
    case Clock(t) => ClockText(t)
    case Entered(text) =>
      var tail := AfterLast(text, 'T');
      if |tail| < 5 then tail else tail[..5]
  }

  /** A form's "YYYY-MM-DDTHH:MM" value shows as its hour and minute. */
  lemma BoardingTimeOfFormValue()
    ensures BoardingTimeText(Entered("2025-03-01T14:30")) == "14:30"
  {
    var s := "2025-03-01T14:30";
    var tail := AfterLast(s, 'T');
    assert s[10] == 'T';
    assert tail == s[11..];
  }

  // ----- mails -----

  /** The template variables of the two kinds of mail. */
  datatype MailContext =
    | UpdateContext(passengerName: string, flightNumber: string, updateTitle: string, updateDescription: string, trackingUrl: string)
    | BookingContext(passengerName: string, flightNumber: string, origin: string, destination: string, departureTime: string, trackingLink: string)

  /** One outgoing mail: recipient, subject, template and the context the template is rendered with. */
  datatype Email = Email(to: string, subject: string, template: string, context: MailContext)

  /** The flight-update mail for one passenger, in the passenger's language. */
  function UpdateEmail(flight: Flight, p: PassengerRow, u: Update): (e: Email)
    ensures e.to == p.email && e.context.UpdateContext?
    ensures e.context.passengerName == p.fullName && e.context.flightNumber == flight.flightNumber
    ensures e.context.trackingUrl == TrackingUrl(p.trackingToken)
    ensures TokenOfUrl(e.context.trackingUrl) == Some(p.trackingToken)
    ensures LanguageOf(p.preferredLanguage) == Arabic ==>
      && e.subject == "تحديث الرحلة " + flight.flightNumber && e.template == "emails/flight_update_ar.html"
      && e.context.updateTitle == u.titleAr && e.context.updateDescription == u.descriptionAr
    ensures LanguageOf(p.preferredLanguage) == English ==>
      && e.subject == "Flight Update " + flight.flightNumber && e.template == "emails/flight_update_en.html"
      && e.context.updateTitle == u.titleEn && e.context.updateDescription == u.descriptionEn
  {
    var url := TrackingUrl(p.trackingToken);
    TrackingUrlRoundTrip(p.trackingToken);
    match LanguageOf(p.preferredLanguage)
    case Arabic =>
      Email(p.email, "تحديث الرحلة " + flight.flightNumber, "emails/flight_update_ar.html",
        UpdateContext(p.fullName, flight.flightNumber, u.titleAr, u.descriptionAr, url))
    case English =>
      Email(p.email, "Flight Update " + flight.flightNumber, "emails/flight_update_en.html",
        UpdateContext(p.fullName, flight.flightNumber, u.titleEn, u.descriptionEn, url))
  }

  /** One send: the mail and whether the mail server took it (a failure is caught and reported, never raised). */
  datatype Attempt = Attempt(email: Email, delivered: bool)

  function BookingsOf(bookings: seq<Booking>, flight: Flight): (r: seq<Booking>)
    ensures forall b :: b in r <==> b in bookings && b.flight == flight.id
    ensures forall b :: multiset(r)[b] == if b.flight == flight.id then multiset(bookings)[b] else 0
  {
    FilterCounts(bookings, (b: Booking) => b.flight == flight.id);
    Filter(bookings, (b: Booking) => b.flight == flight.id)
  }

  /** The attempts the fan-out makes, booking by booking; `accepts` is the mail server's verdict on each mail. */
  function FanOut(flight: Flight, bookings: seq<Booking>, u: Update, accepts: Email -> bool): (log: seq<Attempt>)
    ensures |log| == |BookingsOf(bookings, flight)|
    ensures forall k :: 0 <= k < |log| ==>
      && log[k].email == UpdateEmail(flight, BookingsOf(bookings, flight)[k].passenger, u)
      && log[k].delivered == accepts(log[k].email)
  {
    Attempts(flight, BookingsOf(bookings, flight), u, accepts)
  }

  function Attempts(flight: Flight, mine: seq<Booking>, u: Update, accepts: Email -> bool): (log: seq<Attempt>)
    ensures |log| == |mine|
    ensures forall k :: 0 <= k < |log| ==>
      log[k] == Attempt(UpdateEmail(flight, mine[k].passenger, u), accepts(UpdateEmail(flight, mine[k].passenger, u)))
  {
    if mine == [] then []
    else
      var e := UpdateEmail(flight, mine[|mine| - 1].passenger, u);
      Attempts(flight, mine[..|mine| - 1], u, accepts) + [Attempt(e, accepts(e))]
  }

  /** Mail goes only to passengers booked on the flight, and every booking of the flight gets one. */
  lemma FanOutRecipients(flight: Flight, bookings: seq<Booking>, u: Update, accepts: Email -> bool)
    ensures forall a :: a in FanOut(flight, bookings, u, accepts) ==>
      exists b :: b in bookings && b.flight == flight.id && a.email.to == b.passenger.email
    ensures forall b :: b in bookings && b.flight == flight.id ==>
      exists a :: a in FanOut(flight, bookings, u, accepts) && a.email == UpdateEmail(flight, b.passenger, u)
  {
    var log := FanOut(flight, bookings, u, accepts);
    var mine := BookingsOf(bookings, flight);
    forall a | a in log
      ensures exists b :: b in bookings && b.flight == flight.id && a.email.to == b.passenger.email
    {
      var k :| 0 <= k < |log| && log[k] == a;
      assert mine[k] in mine;
    }
    forall b | b in bookings && b.flight == flight.id
      ensures exists a :: a in log && a.email == UpdateEmail(flight, b.passenger, u)
    {
      assert b in mine;
      var k :| 0 <= k < |mine| && mine[k] == b;
      assert log[k] in log;
    }
  }

  /** A refused mail does not stop the rest: whatever the server accepts, the same mails are attempted. */
  lemma FailuresAreIsolated(flight: Flight, bookings: seq<Booking>, u: Update, a1: Email -> bool, a2: Email -> bool)
    ensures |FanOut(flight, bookings, u, a1)| == |FanOut(flight, bookings, u, a2)|
    ensures forall k :: 0 <= k < |FanOut(flight, bookings, u, a1)| ==>
      FanOut(flight, bookings, u, a1)[k].email == FanOut(flight, bookings, u, a2)[k].email
  {
  }

  /** send_update_email_to_passengers: one attempt per booking of the flight, each in its passenger's language. */
  method SendUpdateEmailToPassengers(flight: Flight, bookings: seq<Booking>, u: Update, accepts: Email -> bool)
    returns (log: seq<Attempt>)
    ensures log == FanOut(flight, bookings, u, accepts)
  {
    var mine := BookingsOf(bookings, flight);
    log := [];
    for i := 0 to |mine|
      invariant log == Attempts(flight, mine[..i], u, accepts)
    {
      var p := mine[i].passenger;
      var e := UpdateEmail(flight, p, u);
      var delivered := accepts(e);
      assert mine[..i + 1][..i] == mine[..i];
      log := log + [Attempt(e, delivered)];
    }
    assert mine[..|mine|] == mine;
  }

  // ----- triggers -----

  /** After a status-history row is saved: notify only when the row is new. */
  method FlightStatusChanged(change: StatusChange, created: bool, flight: Flight, bookings: seq<Booking>, accepts: Email -> bool)
    returns (log: seq<Attempt>)
    requires change.flight == flight.id
    ensures !created ==> log == []
    ensures created ==> log == FanOut(flight, bookings, StatusUpdate(change.newStatus), accepts)
  {
    log := [];
    if created {
      log := SendUpdateEmailToPassengers(flight, bookings, StatusUpdate(change.newStatus), accepts);
    }
  }

  /** After a gate assignment is saved, created or updated alike: notify with the gate, terminal and boarding time. */
  method GateAssigned(gate: GateAssignment, created: bool, flight: Flight, bookings: seq<Booking>, accepts: Email -> bool)
    returns (log: seq<Attempt>)
    requires gate.flight == flight.id
    ensures log == FanOut(flight, bookings, GateUpdate(gate.gateCode, gate.terminal, BoardingTimeText(gate.boardingOpen)), accepts)
  {
    var boarding := BoardingTimeText(gate.boardingOpen);
    log := SendUpdateEmailToPassengers(flight, bookings, GateUpdate(gate.gateCode, gate.terminal, boarding), accepts);
  }

  /** The booking confirmation for a new booking, in the passenger's language, showing the departure as `%H:%M`;
      the two codes are those of the airports the flight's foreign keys name in the airport table. */
  function BookingEmail(p: PassengerRow, flight: Flight, airports: map<nat, Airport>): (e: Email)
    requires flight.origin in airports && flight.destination in airports
    ensures e.to == p.email && e.context.BookingContext?
    ensures e.context.passengerName == p.fullName && e.context.flightNumber == flight.flightNumber
    ensures e.context.origin == airports[flight.origin].code && e.context.destination == airports[flight.destination].code
    ensures e.context.departureTime == ClockText(flight.scheduledDeparture)
    ensures TokenOfUrl(e.context.trackingLink) == Some(p.trackingToken)
    ensures LanguageOf(p.preferredLanguage) == Arabic ==>
      e.subject == "تأكيد الحجز - راصد" && e.template == "emails/booking_confirmation_ar.html"
    ensures LanguageOf(p.preferredLanguage) == English ==>
      e.subject == "Booking Confirmation - Rassid" && e.template == "emails/booking_confirmation_en.html"
  {
    TrackingUrlRoundTrip(p.trackingToken);
    var context := BookingContext(p.fullName, flight.flightNumber, airports[flight.origin].code, airports[flight.destination].code,
      ClockText(flight.scheduledDeparture), TrackingUrl(p.trackingToken));
    match LanguageOf(p.preferredLanguage)
    case Arabic => Email(p.email, "تأكيد الحجز - راصد", "emails/booking_confirmation_ar.html", context)
    case English => Email(p.email, "Booking Confirmation - Rassid", "emails/booking_confirmation_en.html", context)
  }

  /** After a booking is saved: one confirmation when the booking is new, nothing on later saves. */
  method BookingCreated(booking: Booking, created: bool, flight: Flight, airports: map<nat, Airport>, accepts: Email -> bool)
    returns (log: seq<Attempt>)
    requires booking.flight == flight.id
    requires flight.origin in airports && flight.destination in airports
    ensures !created ==> log == []
    ensures created ==> |log| == 1 && log[0].email == BookingEmail(booking.passenger, flight, airports)
    ensures created ==> log[0].delivered == accepts(log[0].email)
  {
    log := [];
    if created {
      var e := BookingEmail(booking.passenger, flight, airports);
      log := [Attempt(e, accepts(e))];
    }
  }
}
