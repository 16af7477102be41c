# Rassid core, modelled in Dafny

Rassid is a Django portal for Saudi airports. It covers subscription sign-up, operator flight pages, support tickets, passenger notifications and a flight-data import. This project models the parts of it that hold real rules and proves what those rules guarantee:

- **Signup phone check** (`signup.dfy`). The signup form's `clean_admin_phone` strips the value, then matches it against `^(\+9665\d{8}|05\d{8})$`.
- **Operator flight pages** (`flight_views.dfy`):
  - the filtered and ordered flight list;
  - the edit page, whose guards run in order (404, role, airport). It records a status-change row only on a real change, overwrites the departure only when one is given, and adds a gate row only when both gate and terminal are given;
  - the passenger list.
- **Tickets** (`tickets.dfy`):
  - the status, category and priority choices;
  - ticket and comment form validation;
  - creation stamped with the creator and their airport;
  - the two list pages, scoped and newest first;
  - the admin's `escalate`, `reject` and `comment` actions.
- **Notifications** (`signals.py`, modelled in `signals.dfy`):
  - the per-flight mail fan-out: one attempt per booking, language chosen by preference, a delivery failure isolated to its passenger;
  - the three save hooks and when each fires;
  - the tracking link;
  - the texts, including the boarding time cut from a form string.
- **Flight import** (`ingestion.dfy`):
  - `safe_get`;
  - `get_airport_or_create`;
  - `save_flights_to_db`: airports get-or-created by code, flights updated-or-created by number, record by record, with the first failure ending the run.
- **Passenger token** (`passengers.dfy`): `Passenger.save` keeps an existing token and otherwise takes the fresh UUID.
- **Airport records** (`airports.dfy`): the airport and subscription choices, their defaults, the upload path and the display strings.

Supporting modules:

- `wrappers.dfy`: Option and Result.
- `text.dfy`: Python's `str.strip` and whitespace set, substring search, the case folding taken for `iexact`/`icontains` (ASCII only, as SQLite's `LIKE` and `lower()` do), and the code-point order taken for `order_by` on text.
- `sequences.dfy`: filter, stable sort by a number, sort by a text key, first match and fresh keys.
- `time.dfy`: instants, calendar days and `%H:%M`.
- `accounts.dfy`: the user's role and airport.
- `flight_models.dfy`: the flight, gate and history rows.

Where behaviour is stateful, the model has a class whose fields are the database tables. Its methods are proved equal to a pure function of the old tables:

| class | method(s) | proved equal to |
|---|---|---|
| `FlightTables` | `EditFlight` | `ApplyEdit` |
| `TicketDesk` | its two methods | `NewTicket` and `ApplyAction` |
| `FlightStore` | `SaveFlightsToDb` | `SaveAll` |
| `Passenger` | `Save` | `TokenOnSave` |

The properties are then proved of those functions.

Inputs the model takes from outside:

- the clock (`now`);
- the generated UUID;
- the mail server's verdict on each mail (`accepts`);
- the departure posted to the edit form and the list page's `date` parameter, as Django would have parsed them (the import's datetimes are kept as the provider's text).

The user model (Rassid/users/models.py) is not part of this model. Its `role` and `airport_id` fields are read the way the views read them.

Where the code behaves differently from what its names, comments and design documents suggest, the model follows the code:

- Ticket actions have no guard on the current status. `escalate` and `reject` overwrite any status, so the status is not monotonic.
- Notifications go to every booking of the flight, whatever its `ticketStatus`.
- A status notification fires whenever a history row is created. Only the edit view's check makes that a real change.
- `edit_flight` answers 404 for a missing flight before it checks the user's role.
- Tracking tokens are not checked for uniqueness.
- The edit page shows a flight's first stored gate row (`filter(...).first()` with no ordering, so the lowest primary key), not the most recent assignment.

## Model

| member | source | states |
|---|---|---|
| Text.Strip | Rassid/airports/forms.py:7 | `str.strip()`: the result is a contiguous piece of the input with only Python whitespace cut from both ends, and it neither starts nor ends with whitespace |
| Text.StripIdempotent | Rassid/airports/forms.py:7 | stripping an already stripped value changes nothing |
| Text.Contains | Rassid/flights/views.py:57 | substring search is true exactly when the needle occurs at some position |
| Signup.CleanPhone | Rassid/airports/forms.py:5-12 | for either reading of `\d`: accepted iff the stripped value (missing reads as "") has the mobile shape; an accepted value comes back stripped; a refusal carries the form's message |
| Signup.CleanAdminPhoneAsWritten | Rassid/airports/forms.py:5-12 | the cleaner as written, with `\d` matching any Unicode decimal digit: accepted iff the stripped value is "+9665" and 8 such digits, or "05" and 8 such digits |
| Signup.CleanAdminPhone | Rassid/airports/forms.py:5-12 | the intended cleaner: accepted iff the stripped value is "+9665" and 8 ASCII digits, or "05" and 8 ASCII digits; the value returned is the stripped text; otherwise the validation message |
| Signup.DigitsToEndMeaning | Rassid/airports/forms.py:9 | `\d{n}$` matches exactly n digits, or n digits and one final newline (Python's `$`) |
| Signup.PatternOnStripped | Rassid/airports/forms.py:7-10 | on a stripped value the regular expression accepts exactly the mobile shape: the final-newline case of `$` cannot arise |
| Signup.MissingPhoneRejected | Rassid/airports/forms.py:7-11 | a missing field is cleaned as "" and refused, in both readings |
| Signup.CleanIdempotent | Rassid/airports/forms.py:7-12 | under either digit class, cleaning an accepted value again accepts it and returns the same text |
| Signup.IntendedWithinAsWritten | Rassid/airports/forms.py:9-10 | whatever the intended cleaner accepts, the written one accepts with the same result |
| Signup.ArabicIndicIsDigit | Rassid/airports/forms.py:9 | U+0660 to U+0669 are matched by `\d` but are not ASCII digits |
| Signup.AsWrittenAcceptsArabicIndicDigits | Rassid/airports/forms.py:9-10 | "05" followed by eight Arabic-Indic digits passes the written cleaner and fails the intended one |
| Airports.NewAirport | Rassid/airports/models.py:7-12 | a new airport keeps the given name, code and city; the country defaults to "Saudi Arabia" |
| Airports.AirportLabel | Rassid/airports/models.py:14-15 | `Airport.__str__` is the name, " (", the code, ")" |
| Airports.DocsPath | Rassid/airports/models.py:4-5 | an upload path is "airport_docs/", the airport name, "/", the file name |
| Airports.DocsPathInjective | Rassid/airports/models.py:4-5 | for airport names without '/', the path determines both the airport name and the file name |
| Airports.ParseRequestStatus | Rassid/airports/models.py:18-23 | a stored request status reads back to the choice with that value; values outside the four choices are refused |
| Airports.ParsePlan | Rassid/airports/models.py:25-29 | a stored plan reads back to the choice with that value; values outside the three choices are refused |
| Airports.NewSubscriptionRequest | Rassid/airports/models.py:31-43 | a new request is 'pending'; its plan defaults to '1_year'; both documents get the upload path under the airport's directory, as requested before storage rewrites the name; the form fields are kept |
| Airports.RequestLabel | Rassid/airports/models.py:45-46 | `SubscriptionRequest.__str__` is "Request: ", the airport name, then the status value in parentheses |
| Airports.NewAirportSubscription | Rassid/airports/models.py:48-54 | a new subscription has max_employees 10 and status 'active' unless given |
| Airports.SubscriptionLabel | Rassid/airports/models.py:56-57 | `AirportSubscription.__str__` is the airport code, " - ", the plan type |
| Passengers.TokenOnSave | Rassid/passengers/models.py:11-15 | a set token is kept; an empty token becomes the generated one; with a non-empty UUID the token afterwards is non-empty |
| Passengers.TokenIsStable | Rassid/passengers/models.py:12-14 | once assigned, a token survives every later save whatever UUID is drawn |
| Passengers.Passenger.constructor | Rassid/passengers/models.py:4-9 | a new passenger keeps the given fields; preferredLanguage defaults to "en"; an unset token is "" |
| Passengers.Passenger.Save | Rassid/passengers/models.py:11-15 | `save()` changes only the token, and only when it is empty |
| Time.DayOf | Rassid/flights/views.py:65 | the `__date` of an instant is the day whose 86400 seconds contain it |
| Time.ClockText | Rassid/passengers/signals.py:106 | `strftime('%H:%M')`: five characters, a colon in the middle, and the digits spell the hour and minute of the instant |
| FlightViews.NarrowIf | Rassid/flights/views.py:55-65 | an optional narrowing keeps exactly the flights it selects (multiplicity by multiplicity) and keeps departure order |
| FlightViews.FlightsList | Rassid/flights/views.py:39-65 | empty unless the user is an operator with an airport; otherwise a permutation of exactly the table's flights from that airport with status 'scheduled' (any case) that match the search (case-insensitive substring of the number), destination and departure day when given, in departure order |
| FlightViews.NarrowedCounts | Rassid/flights/views.py:55-65 | a flight survives the search, destination and date narrowings as often as it was there when it matches all three given conditions, and not at all otherwise |
| FlightViews.NarrowedSorted | Rassid/flights/views.py:49-65 | narrowing keeps the departure order the list was put in |
| FlightViews.FlightsListFacts | Rassid/flights/views.py:49-65 | the three chained narrowings of the ordered scheduled flights give the same flights as one filter by all conditions, still in departure order |
| FlightViews.DestinationChoices | Rassid/flights/views.py:51-53 | for an operator, the airport rows offered are exactly those the airport's scheduled flights fly to, each as often as in the airport table, before search, destination or date narrowing, ordered by city |
| FlightViews.EditAccess | Rassid/flights/views.py:90-97 | a missing flight is refused first, then a user who is not an operator with an airport, then a flight departing from another airport; access is granted exactly for a flight departing from the operator's airport |
| FlightViews.BoardingValue | Rassid/flights/views.py:121-130 | a boarding time is the posted text when non-empty, otherwise the current time |
| FlightViews.ApplyEdit | Rassid/flights/views.py:101-131 | one history row (old, new) iff the posted status is non-empty and differs, and the status becomes it; the departure is overwritten iff one is posted; nothing else in the flight changes; one gate row iff gate code and terminal are both non-empty |
| FlightViews.FirstGate | Rassid/flights/views.py:99 | the gate shown is the earliest stored gate row of the flight, and none is shown only when the flight has none |
| FlightViews.FlightTables.EditFlight | Rassid/flights/views.py:84-139 | refusals and viewing change no table; a posted edit replaces the flight by the edited one and appends exactly the history and gate rows `ApplyEdit` describes |
| FlightViews.EditKeepsIds | Rassid/flights/views.py:106-117 | an edit keeps primary keys unique |
| FlightViews.PassengerList | Rassid/flights/views.py:142-162 | 404 iff the flight is missing; the manifest only for an operator whose airport is the origin, and then exactly the bookings of that flight, each as often as it is stored |
| Tickets.ParseTicketStatus | Rassid/tickets/models.py:24-29 | a stored ticket status reads back to the choice with that value; other values are refused |
| Tickets.ParseCategory | Rassid/tickets/models.py:13-18 | a posted category reads back to the choice with that value; other values are refused |
| Tickets.ParsePriority | Rassid/tickets/models.py:19-23 | a posted priority reads back to the choice with that value; other values are refused |
| Tickets.ValidateTicketForm | Rassid/tickets/forms.py:4-7 | valid iff the stripped title is non-empty, at most 200 characters and free of NUL, category and priority name choices, and the stripped description is non-empty and free of NUL; the cleaned values are the stripped texts and the named choices |
| Tickets.ValidateComment | Rassid/tickets/forms.py:15-18 | a note is valid iff its stripped text is non-empty and free of NUL, and the stripped text is what is stored |
| Tickets.NulSurvivesStrip | Rassid/tickets/forms.py:4-21 | a posted text is NUL-free after stripping exactly when it was before, so the NUL check may be read on the raw value |
| Tickets.NewTicket | Rassid/tickets/views.py:18-21 | a created ticket belongs to its creator and the creator's airport, is 'Open', unassigned and stamped now, and carries the form's values |
| Tickets.ScopedNewestFirst | Rassid/tickets/views.py:35-45 | a scoped list is a permutation of exactly the matching tickets, newest first |
| Tickets.OperatorTickets | Rassid/tickets/views.py:29-36 | non-operators are sent away; an operator sees exactly the tickets they created, newest first |
| Tickets.AdminTickets | Rassid/tickets/views.py:38-46 | only an airport admin with an airport gets a list: exactly that airport's tickets, newest first |
| Tickets.FindTicket | Rassid/tickets/views.py:51-54 | non-admins are turned away first; a ticket is found only with the given key and the admin's airport, and "not found" means there is no such ticket |
| Tickets.ApplyAction | Rassid/tickets/views.py:57-79 | 'escalate' and 'reject' set that status from any status and stamp the update time; 'comment' appends one note by the admin iff the note is valid; any other action changes nothing |
| Tickets.CommentsOf | Rassid/tickets/views.py:55 | the notes shown are exactly the ticket's, each as often as it is stored, oldest first |
| Tickets.TicketDesk.CreateTicket | Rassid/tickets/views.py:8-27 | only an operator with an airport gets anywhere; the form page changes nothing; a valid post appends exactly the ticket `NewTicket` gives, under a fresh key |
| Tickets.TicketDesk.AdminTicketDetail | Rassid/tickets/views.py:48-88 | refusals and viewing change nothing, and viewing shows the ticket with its notes oldest first; a post changes the found ticket and the notes exactly as `ApplyAction` says, and always redirects back |
| Signals.TrackingUrl | Rassid/passengers/signals.py:20 | the tracking link is the fixed prefix, the token, a closing "/" |
| Signals.TokenOfUrl | Rassid/passengers/signals.py:20 | reads the token back out of a tracking link |
| Signals.TrackingUrlRoundTrip | Rassid/passengers/signals.py:20 | the token read from a passenger's link is that passenger's token |
| Signals.TokenOfUrlRoundTrip | Rassid/passengers/signals.py:20 | every tracking link is the link of the token it names |
| Signals.TrackingUrlInjective | Rassid/passengers/signals.py:20 | different tokens give different links |
| Signals.LanguageOf | Rassid/passengers/signals.py:22 | Arabic exactly for the preference "ar"; every other value is English |
| Signals.StatusUpdate | Rassid/passengers/signals.py:66-72 | all four texts of a status notification name the new status |
| Signals.GateUpdate | Rassid/passengers/signals.py:87-93 | fixed titles; both descriptions name the gate, the terminal and the boarding time |
| Signals.AfterLast | Rassid/passengers/signals.py:85 | `split('T')[-1]`: the longest 'T'-free suffix, preceded by a 'T' unless it is the whole text |
| Signals.BoardingTimeText | Rassid/passengers/signals.py:79-85 | a datetime shows as `%H:%M`; a text shows as at most its first five characters after the last 'T' |
| Signals.BoardingTimeOfFormValue | Rassid/passengers/signals.py:83-85 | the form value "2025-03-01T14:30" shows as "14:30" |
| Signals.UpdateEmail | Rassid/passengers/signals.py:14-41 | sent to the passenger's address, carrying their name, the flight number and their tracking link; the Arabic subject, template and texts iff the preference is "ar", otherwise the English ones |
| Signals.BookingsOf | Rassid/passengers/signals.py:11 | exactly the bookings of the flight, each as often as it is stored |
| Signals.Attempts | Rassid/passengers/signals.py:13-58 | one attempt per booking, in order, each with its mail and the server's verdict |
| Signals.FanOut | Rassid/passengers/signals.py:10-58 | as many attempts as the flight has bookings; attempt k is booking k's mail and records whether the server took it |
| Signals.FanOutRecipients | Rassid/passengers/signals.py:11-13 | every mail goes to a passenger booked on the flight, and every booking of the flight gets its mail |
| Signals.FailuresAreIsolated | Rassid/passengers/signals.py:46-58 | which mails fail changes no attempt: the same mails go out whatever the server does |
| Signals.SendUpdateEmailToPassengers | Rassid/passengers/signals.py:10-58 | the loop performs exactly the fan-out's attempts |
| Signals.FlightStatusChanged | Rassid/passengers/signals.py:60-72 | nothing for a re-saved history row; for a new one, the fan-out of the status texts |
| Signals.GateAssigned | Rassid/passengers/signals.py:74-93 | on every save, new or not, the fan-out of the gate texts with the displayed boarding time |
| Signals.BookingEmail | Rassid/passengers/signals.py:98-131 | the confirmation carries the passenger, the flight number, the codes of the flight's own origin and destination airports, the departure as `%H:%M` and the tracking link; Arabic subject and template iff the preference is "ar" |
| Signals.BookingCreated | Rassid/passengers/signals.py:95-148 | nothing for a re-saved booking; exactly one confirmation attempt, with the mail `BookingEmail` builds from the flight's airports, for a new one |
| Ingestion.SafeGet | Rassid/flights/services/flights_api.py:9-10 | the value unless it is None, then the default |
| Ingestion.SafeGetKeepsFalsy | Rassid/flights/services/flights_api.py:9-10 | falsy values other than None ("" and {}) come back unchanged, unlike with `or` |
| Ingestion.SafeGetIdempotent | Rassid/flights/services/flights_api.py:9-10 | applying safe_get twice with the same default is applying it once |
| Ingestion.ColumnText | Rassid/flights/services/flights_api.py:83-95 | a NOT NULL text column accepts exactly a string |
| Ingestion.Path | Rassid/flights/services/flights_api.py:60-93 | a two-level lookup yields text iff the record and the sub-object are objects and the value is a string, and then it yields that string |
| Ingestion.AirportOrCreate | Rassid/flights/services/flights_api.py:48-56 | None and no change for a missing or empty code; an existing airport is returned unmodified; an unknown code is created with name and code set to the code, city "" and country "Saudi Arabia"; no existing airport changes |
| Ingestion.AirportOrCreateIdempotent | Rassid/flights/services/flights_api.py:52-55 | a second call with the same code returns the same airport and changes nothing |
| Ingestion.AirportFromSide | Rassid/flights/services/flights_api.py:67-71 | a new airport is named by the provider's airport name or else the code, placed in its timezone or else "Unknown", country "Unknown" |
| Ingestion.GetOrCreateFromSide | Rassid/flights/services/flights_api.py:65-81 | fails iff the code is not a string, or it is unknown and the defaults cannot be stored; an existing code leaves the table as it was; an unknown one adds exactly the airport with those defaults |
| Ingestion.SideStep | Rassid/flights/services/flights_api.py:60-81 | fails iff the side names no text code, or the code is new and no airport can be built from the side's data; otherwise keeps every existing airport and adds at most its own code, created from that side's data |
| Ingestion.ParsedFlight | Rassid/flights/services/flights_api.py:83-95 | the flight row a record asks for: every NOT NULL column taken from its place in the record, and none when any is missing or not a string |
| Ingestion.SaveRecord | Rassid/flights/services/flights_api.py:59-95 | one iteration completes iff the departure side, then the arrival side on the updated table, then the flight columns all succeed; it keeps existing airports, adds only airports the record names (each built from the side that names it), writes the flight under its number only when it completes, and then both its airports exist |
| Ingestion.SaveAll | Rassid/flights/services/flights_api.py:58-95 | an empty feed completes and changes nothing; a one-record feed is that record's iteration |
| Ingestion.SaveAllSplit | Rassid/flights/services/flights_api.py:58-95 | records are taken in order: a feed split in two runs the first part, stops there with its writes kept if it failed, and otherwise runs the second part on the tables it left |
| Ingestion.SaveRecordCompletes | Rassid/flights/services/flights_api.py:60-95 | a record with object sides, text codes from which new airports can be built, and every NOT NULL column as text is always saved |
| Ingestion.SaveAllCompletes | Rassid/flights/services/flights_api.py:58-95 | a feed of such records is imported to its end |
| Ingestion.SaveAllKeepsAirports | Rassid/flights/services/flights_api.py:65-81 | an airport already on file is never modified by an import |
| Ingestion.SaveRecordKeepsKeyed | Rassid/flights/services/flights_api.py:65-81 | one record keeps every airport filed under its own code |
| Ingestion.SaveAllKeepsKeyed | Rassid/flights/services/flights_api.py:65-81 | airport codes stay unique keys through a whole import |
| Ingestion.SaveRecordKeepsFlightsConsistent | Rassid/flights/services/flights_api.py:83-95 | one record keeps flights filed under their numbers and pointing at existing airports |
| Ingestion.SaveAllKeepsFlightsConsistent | Rassid/flights/services/flights_api.py:83-95 | each flight number maps to one row with that number, and its airports exist, through a whole import |
| Ingestion.SaveAllKeepsOtherFlights | Rassid/flights/services/flights_api.py:92-95 | flights whose number no record names are untouched |
| Ingestion.SaveAllKeepsFlightNumbers | Rassid/flights/services/flights_api.py:92-95 | no import removes a flight |
| Ingestion.SaveAllFilesEveryRecord | Rassid/flights/services/flights_api.py:58-95 | after a completed import every record's flight number is on file |
| Ingestion.FirstRecordStays | Rassid/flights/services/flights_api.py:92-95 | a record's flight stays as written when no later record has its number |
| Ingestion.SaveAllLastRecordWins | Rassid/flights/services/flights_api.py:58-95 | after a completed import a flight's row is the one its last record asked for |
| Ingestion.SaveRecordGrowth | Rassid/flights/services/flights_api.py:65-95 | one record adds at most two airports and at most one flight |
| Ingestion.FlightStore.GetAirportOrCreate | Rassid/flights/services/flights_api.py:48-56 | the live table and the answer are those `AirportOrCreate` gives |
| Ingestion.FlightStore.SaveFlightsToDb | Rassid/flights/services/flights_api.py:58-95 | the loop leaves exactly the tables `SaveAll` gives: records in order, stopping at the first failure with earlier writes kept |

## Left out

- Network fetch in `fetch_flights`. It is network I/O.
- `parse_flight_data`, which refers to names it never defines and cannot run.
- The Celery task and the operator-triggered fetch view. Both are I/O plumbing.
- Mail delivery, template rendering and `strip_tags`. Delivery is represented by the `accepts` verdict; rendered bodies are not represented.
- `Signals.SendUpdateEmailToPassengers` and `Signals.FailuresAreIsolated`: only `send_mail` errors are caught per passenger (Rassid/passengers/signals.py:46-58). `render_to_string` and `strip_tags` run before the `try` (Rassid/passengers/signals.py:43-44), so a template or rendering error would end the fan-out for the remaining bookings and reach the hook's caller. The model takes rendering as always succeeding.
- Console logging and Django flash messages. They have no effect on stored state.
- `login_required`, templates, URL routing and ORM query machinery.
- Clock and UUIDs. The clock value and generated UUIDs are parameters.
- Time zones. `DayOf` and `ClockText` work on the server's local clock seconds.
- Datetime parsing on the edit form (Rassid/flights/views.py:112-131). The model takes every posted datetime as well-formed: `scheduledDeparture` arrives parsed (`Option<Instant>`), and `boardingOpenTime`/`boardingCloseTime` are kept as text. In the source a malformed boarding time makes `GateAssignment.objects.create` raise after the flight was saved. A malformed departure makes `flight.save()` raise after the history row was created, and that creation already sent the status mails for a change that did not persist. `FlightViews.BoardingValue` and `FlightViews.FlightTables.EditFlight` return `Entered(text)` and `Saved` in those cases.
- Datetime parsing in the import. Scheduled times are kept as the provider's text. Django's parsing of that text when saving, and the error a malformed value raises, are not modelled.
- The destination and date query parameters (Rassid/flights/views.py:59-65). `ListQuery` takes them as an already parsed airport key and calendar day. A non-numeric destination, or a date such as "abc" or "2025-13-45" that makes the `scheduledDeparture__date` lookup raise a validation error, is not modelled.
- The operator's own tickets on the flight-list page (Rassid/flights/views.py:70-71). That is the same query as `Tickets.OperatorTickets` and is not repeated.
- Field-level checks before `clean_admin_phone` runs (required, max_length 20, no NUL). Only the method is modelled.
- Case-insensitive lookups (`status__iexact`, `flightNumber__icontains`) fold ASCII letters only, as SQLite does. Django leaves the folding to the database, and a backend such as PostgreSQL folds Unicode letters too; the settings that pick the backend are not part of this model.
- `FlightViews.DestinationChoices`: the city order is code-point order, as SQLite's default binary collation sorts. Another backend's collation may order the cities differently, and ties between equal cities come out in an order the model fixes but the database does not.
- `Airports.NewSubscriptionRequest`: the document columns hold the path `airport_docs_path` returns. Django's storage then rewrites that name when saving the file: `get_valid_name` turns spaces in the file-name part into "_" and drops other unsafe characters from it, the path is normalised, a taken name gets a random suffix, and a path with a ".." component is refused with `SuspiciousFileOperation`. So the stored name equals `DocsPath` only for clean, untaken names, and `Airports.DocsPathInjective` is a property of the requested path, not of the stored column.
- `Signup.CleanAdminPhoneAsWritten`: uses the Unicode 15.0 digit table; newer Unicode versions add digits that Python's `\d` may accept.
- `Ingestion.ColumnText`: a nested JSON object where text is expected stops the run in the model. Django would store the object's Python repr instead.
- JSON numbers, booleans and lists. They are not represented, and the import's text values are taken as strings.
- `Ingestion.FlightStore.SaveFlightsToDb`: the flight table is a map keyed by flight number, so a database already holding two flights with one number (which makes `update_or_create` raise) cannot be represented. Column length limits are not enforced.
- `Signals.BookingEmail`: the `str(...)` fallback when `strftime` raises is not modelled. A departure loaded from the database is always a datetime.
- New primary keys are taken as one above the largest present key. The database's sequence may differ.
- Tracking-token uniqueness is not modelled: the token is whatever UUID is supplied.
- The passenger tracker, the subscription approval, payment and renewal workflow, and the dashboards are not part of this model; their handlers are not among the modelled files.

## Findings

| source | as written | input that shows it | evidently intended | confidence | as-written member | corrected member |
|---|---|---|---|---|---|---|
| Rassid/airports/forms.py:9 | `\d` in a `str` pattern matches every Unicode decimal digit | "05" followed by the Arabic-Indic digits U+0661 to U+0668 is accepted as a Saudi mobile number | only the ASCII digits 0-9 after "+9665" or "05" | medium, not executed | Signup.CleanAdminPhoneAsWritten, Signup.AsWrittenAcceptsArabicIndicDigits | Signup.CleanAdminPhone |
