/** The flight-data import: reading the provider's decoded JSON records and upserting airports by code and flights by number. */
module Ingestion {
  import opened Wrappers
  import opened Text
  import opened Airports

  // ----- decoded JSON and the Python idioms read on it -----

  /** A decoded JSON value, as far as the import looks into it. */
  datatype Json = Null | Str(s: string) | Obj(fields: map<string, Json>)

  /** Python truthiness: None, "" and {} are false. */
  predicate JsonTruthy(j: Json) {
    match j
    case Null => false
    case Str(s) => s != ""
    case Obj(m) => m != map[]
  }

  /** safe_get: only None is replaced by the default; "", {} and every other value come back as they are. */
  function SafeGet(value: Json, default: Json): (r: Json)
    ensures value != Null ==> r == value
    ensures value == Null ==> r == default
    ensures JsonTruthy(r) ==> JsonTruthy(value) || JsonTruthy(default)
  {
    if value != Null then value else default
  }

  /** A falsy value other than None passes through, unlike with `or`. */
  lemma SafeGetKeepsFalsy(value: Json, default: Json)
    requires value != Null && !JsonTruthy(value)
    ensures SafeGet(value, default) == value
    ensures JsonTruthy(default) ==> Or(value, default) != SafeGet(value, default)
  {
  }

  lemma SafeGetIdempotent(value: Json, default: Json)
    ensures SafeGet(SafeGet(value, default), default) == SafeGet(value, default)
  {
  }

  /** `d.get(key)`: None when the key is absent. */
  function Get(m: map<string, Json>, key: string): (j: Json)
    ensures key in m ==> j == m[key]
    ensures key !in m ==> j == Null
  {
    if key in m then m[key] else Null
  }

  /** Python `a or b`. */
  function Or(a: Json, b: Json): (r: Json)
    ensures JsonTruthy(a) ==> r == a
    ensures !JsonTruthy(a) ==> r == b
  {
    if JsonTruthy(a) then a else b
  }

  /** `record.get(key, {})` as the later `.get` calls see it: a missing key reads as an empty object; a present value that is not an object makes that `.get` raise (None here). */
  function SubObject(record: map<string, Json>, key: string): (r: Option<map<string, Json>>)
    ensures key !in record ==> r == Some(map[])
    ensures key in record ==> (r.Some? <==> record[key].Obj?)
    ensures key in record && record[key].Obj? ==> r == Some(record[key].fields)
  {
    if key !in record then Some(map[])
    else match record[key]
      case Obj(m) => Some(m)
      case _ => None
  }

  /** The value a NOT NULL text column receives; None when the save fails (a null, or a nested object). */
  function ColumnText(j: Json): (r: Option<string>)
    ensures r.Some? <==> j.Str?
    ensures r.Some? ==> r.value == j.s
  {
    if j.Str? then Some(j.s) else None
  }

  /** `record.get(outer, {}).get(key)` read as column text. */
  function Path(record: Json, outer: string, key: string): (r: Option<string>)
    ensures r.Some? <==>
      record.Obj? && outer in record.fields && record.fields[outer].Obj? && Get(record.fields[outer].fields, key).Str?
    ensures r.Some? ==> Get(record.fields[outer].fields, key) == Str(r.value)
  {
    if !record.Obj? then None
    else match SubObject(record.fields, outer)
      case None => None
      case Some(m) => ColumnText(Get(m, key))
  }

  // ----- tables -----

  /** A flight row as the import writes it; origin and destination are airport codes, the times the provider's text. */
  datatype IngestedFlight = IngestedFlight(
    flightNumber: string, status: string, scheduledDeparture: string, scheduledArrival: string,
    airlineCode: string, origin: string, destination: string)

  /** The airport table keyed by code and the flight table keyed by flight number. */
  datatype Tables = Tables(airports: map<string, Airport>, flights: map<string, IngestedFlight>)

  ghost predicate FlightsKeyed(flights: map<string, IngestedFlight>) {
    forall n :: n in flights ==> flights[n].flightNumber == n
  }

  /** Every flight's origin and destination exist in the airport table. */
  ghost predicate FlightsReferToAirports(t: Tables) {
    forall n :: n in t.flights ==> t.flights[n].origin in t.airports && t.flights[n].destination in t.airports
  }

  // ----- get_airport_or_create -----

  /** What get_airport_or_create hands back, with the airport table afterwards. */
  datatype Fetched = Fetched(airport: Option<Airport>, airports: map<string, Airport>)

  /** get_airport_or_create: no lookup for a missing or empty code; an existing airport comes back untouched; an unknown code is created, named by the code, with the column defaults. */
  function AirportOrCreate(airports: map<string, Airport>, iata: Option<string>): (r: Fetched)
    ensures !Truthy(iata) ==> r == Fetched(None, airports)
    ensures Truthy(iata) && iata.value in airports ==> r == Fetched(Some(airports[iata.value]), airports)
    ensures Truthy(iata) && iata.value !in airports ==>
      && r.airport == Some(Airport(iata.value, iata.value, "", DefaultCountry))
      && r.airports == airports[iata.value := r.airport.value]
    ensures r.airport.Some? ==> r.airport.value.code == iata.value || iata.value in airports
    ensures forall c :: c in airports ==> c in r.airports && r.airports[c] == airports[c]
  {
    if !Truthy(iata) then Fetched(None, airports)
    else if iata.value in airports then Fetched(Some(airports[iata.value]), airports)
    else
      var a := NewAirport(iata.value, iata.value, "", None);
      Fetched(Some(a), airports[iata.value := a])
  }

  /** A second call with the same code finds what the first returned and changes nothing more. */
  lemma AirportOrCreateIdempotent(airports: map<string, Airport>, iata: Option<string>)
    ensures var first := AirportOrCreate(airports, iata);
      AirportOrCreate(first.airports, iata) == first
  {
  }

  // ----- save_flights_to_db -----

  const UnknownPlace := "Unknown"

  /** The airport an unknown code is created as: the provider's airport name or else the code, its timezone or else "Unknown", country "Unknown". */
  function AirportFromSide(side: map<string, Json>, code: string): (a: Option<Airport>)
    ensures a.None? <==>
      || (JsonTruthy(Get(side, "airport")) && !Get(side, "airport").Str?)
      || (JsonTruthy(Get(side, "timezone")) && !Get(side, "timezone").Str?)
    ensures a.Some? ==> a.value.code == code && a.value.country == UnknownPlace
    ensures a.Some? ==> a.value.name == (if JsonTruthy(Get(side, "airport")) then Get(side, "airport").s else code)
    ensures a.Some? ==> a.value.city == (if JsonTruthy(Get(side, "timezone")) then Get(side, "timezone").s else UnknownPlace)
    ensures a.Some? ==> a.value.name != "" || code == ""
  {
    var name := ColumnText(Or(Get(side, "airport"), Str(code)));
    var city := ColumnText(Or(Get(side, "timezone"), Str(UnknownPlace)));
    if name.Some? && city.Some? then Some(Airport(name.value, code, city.value, UnknownPlace)) else None
  }

  datatype Lookup = Lookup(code: string, airports: map<string, Airport>)

  /** `Airport.objects.get_or_create(code=side.get("iata"), defaults=…)`; None when the lookup or the insert fails. */
  function GetOrCreateFromSide(airports: map<string, Airport>, side: map<string, Json>): (o: Option<Lookup>)
    ensures o.None? <==>
      || !Get(side, "iata").Str?
      || (Get(side, "iata").s !in airports && AirportFromSide(side, Get(side, "iata").s).None?)
    ensures o.Some? ==> Get(side, "iata") == Str(o.value.code) && o.value.code in o.value.airports
    ensures o.Some? && o.value.code in airports ==> o.value.airports == airports
    ensures o.Some? && o.value.code !in airports ==>
      o.value.airports == airports[o.value.code := AirportFromSide(side, o.value.code).value]
  {
    match ColumnText(Get(side, "iata"))
    case None => None
    case Some(code) =>
      if code in airports then Some(Lookup(code, airports))
      else match AirportFromSide(side, code)
        case None => None
        case Some(a) => Some(Lookup(code, airports[code := a]))
  }

  /** The flight row a record asks for; None when a record-level value is missing, null or of the wrong kind. */
  function ParsedFlight(record: Json): (r: Option<IngestedFlight>)
    ensures r.Some? <==>
      && Path(record, "flight", "iata").Some? && Path(record, "airline", "iata").Some?
      && Path(record, "departure", "iata").Some? && Path(record, "departure", "scheduled").Some?
      && Path(record, "arrival", "iata").Some? && Path(record, "arrival", "scheduled").Some?
      && record.Obj? && Get(record.fields, "flight_status").Str?
    ensures r.Some? ==>
      && r.value.flightNumber == Path(record, "flight", "iata").value
      && r.value.status == Get(record.fields, "flight_status").s
      && r.value.scheduledDeparture == Path(record, "departure", "scheduled").value
      && r.value.scheduledArrival == Path(record, "arrival", "scheduled").value
      && r.value.airlineCode == Path(record, "airline", "iata").value
      && r.value.origin == Path(record, "departure", "iata").value
      && r.value.destination == Path(record, "arrival", "iata").value
  {
    var number := Path(record, "flight", "iata");
    var departure := Path(record, "departure", "scheduled");
    var arrival := Path(record, "arrival", "scheduled");
    var airline := Path(record, "airline", "iata");
    var origin := Path(record, "departure", "iata");
    var destination := Path(record, "arrival", "iata");
    if number.Some? && departure.Some? && arrival.Some? && airline.Some? && origin.Some? && destination.Some?
      && Get(record.fields, "flight_status").Str?
    then
      Some(IngestedFlight(number.value, Get(record.fields, "flight_status").s, departure.value, arrival.value,
        airline.value, origin.value, destination.value))
    else None
  }

  /** The flight number a record is filed under, when it names one. */
  function FlightNumberOf(record: Json): Option<string> {
    Path(record, "flight", "iata")
  }

  /** The airport codes a record names. */
  function RecordCodes(record: Json): (s: set<string>)
    ensures |s| <= 2
  {
    var o := Path(record, "departure", "iata");
    var d := Path(record, "arrival", "iata");
    (if o.Some? then {o.value} else {}) + (if d.Some? then {d.value} else {})
  }

  /** Whether airport a is the one the given side of the record creates for code c. */
  predicate CreatedFrom(record: Json, side: string, c: string, a: Airport) {
    && record.Obj?
    && SubObject(record.fields, side).Some?
    && AirportFromSide(SubObject(record.fields, side).value, c) == Some(a)
  }

  /** The effect of a run on the tables, and whether it got to the end (false: an exception escaped; what was saved before it stays). */
  datatype Run = Run(tables: Tables, completed: bool)

  /** The get_or_create for one side ("departure" or "arrival") of a record; None when it raises. */
  function SideStep(airports: map<string, Airport>, record: Json, side: string): (o: Option<Lookup>)
    ensures o.None? <==>
      || Path(record, side, "iata").None?
      || (Path(record, side, "iata").value !in airports
          && AirportFromSide(record.fields[side].fields, Path(record, side, "iata").value).None?)
    ensures o.Some? ==> Path(record, side, "iata") == Some(o.value.code) && o.value.code in o.value.airports
    ensures o.Some? ==> forall c :: c in airports ==> c in o.value.airports && o.value.airports[c] == airports[c]
    ensures o.Some? ==> o.value.airports.Keys <= airports.Keys + {o.value.code}
    ensures o.Some? && o.value.code !in airports ==>
      CreatedFrom(record, side, o.value.code, o.value.airports[o.value.code])
  {
    if !record.Obj? then None
    else match SubObject(record.fields, side)
      case None => None
      case Some(m) => GetOrCreateFromSide(airports, m)
  }

  /** One loop iteration: origin, then destination, then the flight, each saved as soon as it is reached. */
  function SaveRecord(t: Tables, record: Json): (r: Run)
    ensures forall c :: c in t.airports ==> c in r.tables.airports && r.tables.airports[c] == t.airports[c]
    ensures r.tables.airports.Keys <= t.airports.Keys + RecordCodes(record)
    ensures forall c :: c in r.tables.airports && c !in t.airports ==>
      || (Path(record, "departure", "iata") == Some(c) && CreatedFrom(record, "departure", c, r.tables.airports[c]))
      || (Path(record, "arrival", "iata") == Some(c) && CreatedFrom(record, "arrival", c, r.tables.airports[c]))
    ensures r.completed ==>
      && ParsedFlight(record).Some?
      && r.tables.flights == t.flights[ParsedFlight(record).value.flightNumber := ParsedFlight(record).value]
      && ParsedFlight(record).value.origin in r.tables.airports
      && ParsedFlight(record).value.destination in r.tables.airports
    ensures !r.completed ==> r.tables.flights == t.flights
    ensures r.completed <==>
      var o := SideStep(t.airports, record, "departure");
      o.Some? && SideStep(o.value.airports, record, "arrival").Some? && ParsedFlight(record).Some?
  {
    match SideStep(t.airports, record, "departure")
    case None => Run(t, false)
    case Some(o) =>
      match SideStep(o.airports, record, "arrival")
      case None => Run(t.(airports := o.airports), false)
      case Some(d) =>
        match ParsedFlight(record)
        case None => Run(t.(airports := d.airports), false)
        case Some(f) => Run(Tables(d.airports, t.flights[f.flightNumber := f]), true)
  }

  /** The whole loop: record after record until one raises. */
  function SaveAll(t: Tables, data: seq<Json>): (r: Run)
    ensures data == [] ==> r == Run(t, true)
    ensures |data| == 1 ==> r == SaveRecord(t, data[0])
    decreases |data|
  {
    if data == [] then Run(t, true)
    else
      var r := SaveRecord(t, data[0]);
      if !r.completed then r else SaveAll(r.tables, data[1..])
  }

  /** A run over two batches is the run over the first, then, only if that got to its end, the run over the second
      from the tables it left; a failure in the first batch keeps its partial writes and skips the second. */
  lemma {:induction false} SaveAllSplit(t: Tables, a: seq<Json>, b: seq<Json>)
    ensures SaveAll(t, a + b) == if SaveAll(t, a).completed then SaveAll(SaveAll(t, a).tables, b) else SaveAll(t, a)
    decreases |a|
  {
    if a == [] {
      assert a + b == b;
    } else {
      assert (a + b)[0] == a[0] && (a + b)[1..] == a[1..] + b;
      var r := SaveRecord(t, a[0]);
      if r.completed {
        SaveAllSplit(r.tables, a[1..], b);
      }
    }
  }

  /** A side the import can always file: it names a text code, and an airport can be built from it if the code is new. */
  predicate SideWellFormed(record: Json, side: string) {
    && Path(record, side, "iata").Some?
    && AirportFromSide(record.fields[side].fields, Path(record, side, "iata").value).Some?
  }

  /** A record the import can always save: both sides well-formed and every NOT NULL column present as text. */
  predicate WellFormed(record: Json) {
    ParsedFlight(record).Some? && SideWellFormed(record, "departure") && SideWellFormed(record, "arrival")
  }

  /** A well-formed record is saved whatever the tables hold. */
  lemma SaveRecordCompletes(t: Tables, record: Json)
    requires WellFormed(record)
    ensures SaveRecord(t, record).completed
  {
    var o := SideStep(t.airports, record, "departure");
    assert o.Some?;
    assert SideStep(o.value.airports, record, "arrival").Some?;
  }

  /** A feed of well-formed records is imported to its end. */
  lemma {:induction false} SaveAllCompletes(t: Tables, data: seq<Json>)
    requires forall i :: 0 <= i < |data| ==> WellFormed(data[i])
    ensures SaveAll(t, data).completed
    decreases |data|
  {
    if data != [] {
      SaveRecordCompletes(t, data[0]);
      assert forall i :: 0 <= i < |data[1..]| ==> data[1..][i] == data[i + 1];
      SaveAllCompletes(SaveRecord(t, data[0]).tables, data[1..]);
    }
  }

  // ----- what the import keeps -----

  /** An airport already on file is never modified, however many records name it. */
  lemma {:induction false} SaveAllKeepsAirports(t: Tables, data: seq<Json>)
    ensures forall c :: c in t.airports ==>
      c in SaveAll(t, data).tables.airports && SaveAll(t, data).tables.airports[c] == t.airports[c]
    decreases |data|
  {
    if data != [] {
      var r := SaveRecord(t, data[0]);
      if r.completed {
        SaveAllKeepsAirports(r.tables, data[1..]);
      }
    }
  }

  /** One record keeps every airport under its own code. */
  lemma SaveRecordKeepsKeyed(t: Tables, record: Json)
    requires KeyedByCode(t.airports)
    ensures KeyedByCode(SaveRecord(t, record).tables.airports)
  {
    var r := SaveRecord(t, record);
    forall c | c in r.tables.airports
      ensures r.tables.airports[c].code == c
    {
      if c !in t.airports {
        var side := if Path(record, "departure", "iata") == Some(c)
          && CreatedFrom(record, "departure", c, r.tables.airports[c]) then "departure" else "arrival";
        assert CreatedFrom(record, side, c, r.tables.airports[c]);
      }
    }
  }

  /** Codes stay unique keys: every airport sits under its own code. */
  lemma {:induction false} SaveAllKeepsKeyed(t: Tables, data: seq<Json>)
    requires KeyedByCode(t.airports)
    ensures KeyedByCode(SaveAll(t, data).tables.airports)
    decreases |data|
  {
    if data != [] {
      var r := SaveRecord(t, data[0]);
      SaveRecordKeepsKeyed(t, data[0]);
      if r.completed {
        SaveAllKeepsKeyed(r.tables, data[1..]);
      }
    }
  }

  /** One record keeps flights filed under their numbers and pointing at existing airports. */
  lemma SaveRecordKeepsFlightsConsistent(t: Tables, record: Json)
    requires FlightsKeyed(t.flights) && FlightsReferToAirports(t)
    ensures FlightsKeyed(SaveRecord(t, record).tables.flights) && FlightsReferToAirports(SaveRecord(t, record).tables)
  {
    var r := SaveRecord(t, record);
    if r.completed {
      var f := ParsedFlight(record).value;
      forall n | n in r.tables.flights
        ensures r.tables.flights[n].flightNumber == n
        ensures r.tables.flights[n].origin in r.tables.airports && r.tables.flights[n].destination in r.tables.airports
      {
        if n != f.flightNumber {
          assert n in t.flights && r.tables.flights[n] == t.flights[n];
        }
      }
    } else {
      forall n | n in r.tables.flights
        ensures r.tables.flights[n].origin in r.tables.airports && r.tables.flights[n].destination in r.tables.airports
      {
        assert n in t.flights && r.tables.flights[n] == t.flights[n];
      }
    }
  }

  /** Flight rows stay filed under their own number, and every flight's airports exist. */
  lemma {:induction false} SaveAllKeepsFlightsConsistent(t: Tables, data: seq<Json>)
    requires FlightsKeyed(t.flights) && FlightsReferToAirports(t)
    ensures FlightsKeyed(SaveAll(t, data).tables.flights) && FlightsReferToAirports(SaveAll(t, data).tables)
    decreases |data|
  {
    if data != [] {
      var r := SaveRecord(t, data[0]);
      SaveRecordKeepsFlightsConsistent(t, data[0]);
      if r.completed {
        SaveAllKeepsFlightsConsistent(r.tables, data[1..]);
      }
    }
  }

  /** A flight whose number no record names is left as it was. */
  lemma {:induction false} SaveAllKeepsOtherFlights(t: Tables, data: seq<Json>, n: string)
    requires n in t.flights
    requires forall i :: 0 <= i < |data| ==> FlightNumberOf(data[i]) != Some(n)
    ensures n in SaveAll(t, data).tables.flights && SaveAll(t, data).tables.flights[n] == t.flights[n]
    decreases |data|
  {
    if data != [] {
      assert FlightNumberOf(data[0]) != Some(n);
      var r := SaveRecord(t, data[0]);
      if r.completed {
        SaveAllKeepsOtherFlights(r.tables, data[1..], n);
      }
    }
  }

  /** No run removes a flight. */
  lemma {:induction false} SaveAllKeepsFlightNumbers(t: Tables, data: seq<Json>)
    ensures t.flights.Keys <= SaveAll(t, data).tables.flights.Keys
    decreases |data|
  {
    if data != [] {
      var r := SaveRecord(t, data[0]);
      if r.completed {
        SaveAllKeepsFlightNumbers(r.tables, data[1..]);
      }
    }
  }

  /** A completed run files every record's flight under its number. */
  lemma {:induction false} SaveAllFilesEveryRecord(t: Tables, data: seq<Json>, i: nat)
    requires SaveAll(t, data).completed && i < |data|
    ensures ParsedFlight(data[i]).Some? && ParsedFlight(data[i]).value.flightNumber in SaveAll(t, data).tables.flights
    decreases |data|
  {
    var r := SaveRecord(t, data[0]);
    if i == 0 {
      SaveAllKeepsFlightNumbers(r.tables, data[1..]);
    } else {
      assert data[1..][i - 1] == data[i];
      SaveAllFilesEveryRecord(r.tables, data[1..], i - 1);
    }
  }

  /** Dropping the first record keeps "no later record has number n" true one position earlier. */
  lemma NoLaterNumber(data: seq<Json>, i: nat, n: string)
    requires 0 < |data| && i < |data|
    requires forall j :: i < j < |data| ==> FlightNumberOf(data[j]) != Some(n)
    ensures forall j :: i <= j < |data[1..]| ==> FlightNumberOf(data[1..][j]) != Some(n)
  {
    forall j | i <= j < |data[1..]|
      ensures FlightNumberOf(data[1..][j]) != Some(n)
    {
      assert data[1..][j] == data[j + 1];
    }
  }

  /** The first record's flight survives the rest of the run when no later record has its number. */
  lemma FirstRecordStays(t: Tables, data: seq<Json>, f: IngestedFlight)
    requires SaveAll(t, data).completed
    requires 0 < |data| && ParsedFlight(data[0]) == Some(f)
    requires forall j :: 0 <= j < |data[1..]| ==> FlightNumberOf(data[1..][j]) != Some(f.flightNumber)
    ensures f.flightNumber in SaveAll(t, data).tables.flights && SaveAll(t, data).tables.flights[f.flightNumber] == f
  {
    var r := SaveRecord(t, data[0]);
    assert r.completed && SaveAll(t, data) == SaveAll(r.tables, data[1..]);
    SaveAllKeepsOtherFlights(r.tables, data[1..], f.flightNumber);
  }

  /** The last record with a given number decides that flight's row. */
  lemma {:induction false} SaveAllLastRecordWins(t: Tables, data: seq<Json>, i: nat, f: IngestedFlight)
    requires SaveAll(t, data).completed
    requires i < |data| && ParsedFlight(data[i]) == Some(f)
    requires forall j :: i < j < |data| ==> FlightNumberOf(data[j]) != Some(f.flightNumber)
    ensures f.flightNumber in SaveAll(t, data).tables.flights && SaveAll(t, data).tables.flights[f.flightNumber] == f
    decreases |data|
  {
    NoLaterNumber(data, i, f.flightNumber);
    if i == 0 {
      FirstRecordStays(t, data, f);
    } else {
      var r := SaveRecord(t, data[0]);
      assert r.completed && SaveAll(t, data) == SaveAll(r.tables, data[1..]);
      assert data[1..][i - 1] == data[i];
      SaveAllLastRecordWins(r.tables, data[1..], i - 1, f);
    }
  }

  /** One record adds at most two airports and at most one flight. */
  lemma SaveRecordGrowth(t: Tables, record: Json)
    ensures |SaveRecord(t, record).tables.airports| <= |t.airports| + 2
    ensures |SaveRecord(t, record).tables.flights| <= |t.flights| + 1
  {
    var r := SaveRecord(t, record);
    SubsetCardinality(r.tables.airports.Keys, t.airports.Keys + RecordCodes(record));
    assert |t.airports.Keys + RecordCodes(record)| <= |t.airports.Keys| + |RecordCodes(record)|;
    assert |r.tables.airports| == |r.tables.airports.Keys|;
    assert |t.airports| == |t.airports.Keys|;
    if r.completed {
      var f := ParsedFlight(record).value;
      SubsetCardinality(r.tables.flights.Keys, t.flights.Keys + {f.flightNumber});
      assert |r.tables.flights| == |r.tables.flights.Keys|;
      assert |t.flights| == |t.flights.Keys|;
    }
  }

  lemma {:induction false} SubsetCardinality<T>(a: set<T>, b: set<T>)
    requires a <= b
    ensures |a| <= |b|
    decreases |b|
  {
    if a != {} {
      var x :| x in a;
      SubsetCardinality(a - {x}, b - {x});
    }
  }

  /** The flight and airport tables as the database holds them. */
  class FlightStore {
    var airports: map<string, Airport>
    var flights: map<string, IngestedFlight>

    ghost predicate Valid()
      reads this
    {
      && KeyedByCode(airports)
      && FlightsKeyed(flights)
      && FlightsReferToAirports(Tables(airports, flights))
    }

    constructor ()
      ensures Valid() && airports == map[] && flights == map[]
    {
      airports := map[];
      flights := map[];
    }

    /** get_airport_or_create on the live table. */
    method GetAirportOrCreate(iata: Option<string>) returns (a: Option<Airport>)
      requires Valid()
      modifies this`airports
      ensures Valid()
      ensures Fetched(a, airports) == AirportOrCreate(old(airports), iata)
    {
      if !Truthy(iata) {
        return None;
      }
      var code := iata.value;
      if code in airports {
        return Some(airports[code]);
      }
      var created := NewAirport(code, code, "", None);
      airports := airports[code := created];
      a := Some(created);
    }

    /** save_flights_to_db: records in order; the first failure ends the run and leaves earlier writes in place. */
    method SaveFlightsToDb(data: seq<Json>) returns (completed: bool)
      requires Valid()
      modifies this
      ensures Valid()
      ensures Run(Tables(airports, flights), completed) == SaveAll(old(Tables(airports, flights)), data)
    {
      ghost var start := Tables(airports, flights);
      completed := true;
      var i := 0;
      while i < |data|
        invariant 0 <= i <= |data|
        invariant Valid()
        invariant SaveAll(Tables(airports, flights), data[i..]) == SaveAll(start, data)
      {
        assert data[i..][0] == data[i] && data[i..][1..] == data[i + 1..];
        ghost var before := Tables(airports, flights);
        SaveRecordKeepsKeyed(before, data[i]);
        SaveRecordKeepsFlightsConsistent(before, data[i]);
        var origin := SideStep(airports, data[i], "departure");
        if origin.None? {
          return false;
        }
        airports := origin.value.airports;
        var destination := SideStep(airports, data[i], "arrival");
        if destination.None? {
          return false;
        }
        airports := destination.value.airports;
        var parsed := ParsedFlight(data[i]);
        if parsed.None? {
          return false;
        }
        flights := flights[parsed.value.flightNumber := parsed.value];
        assert Tables(airports, flights) == SaveRecord(before, data[i]).tables;
        i := i + 1;
      }
    }
  }
}
