/** Airports, subscription requests and subscriptions: their shapes, choices, defaults and display strings. */
module Airports {
  import opened Wrappers
  import opened Time

  datatype Airport = Airport(name: string, code: string, city: string, country: string)

  const DefaultCountry := "Saudi Arabia"

  /** A new airport row; the country falls back to its column default. */
  function NewAirport(name: string, code: string, city: string, country: Option<string>): (a: Airport)
    ensures a.name == name && a.code == code && a.city == city
    ensures country.None? ==> a.country == DefaultCountry
    ensures country.Some? ==> a.country == country.value
  {
    Airport(name, code, city, country.GetOr(DefaultCountry))
  }

  /** `code` is unique across airports: the airport table is a map keyed by code. */
  ghost predicate KeyedByCode(airports: map<string, Airport>) {
    forall c :: c in airports ==> airports[c].code == c
  }

  /** Airport.__str__: the name, then the code in parentheses. */
  function AirportLabel(a: Airport): (r: string)
    ensures |r| == |a.name| + |a.code| + 3
    ensures r[..|a.name|] == a.name
    ensures r[|a.name|..|a.name| + 2] == " ("
    ensures r[|a.name| + 2..|r| - 1] == a.code
    ensures r[|r| - 1] == ')'
  {
    a.name + " (" + a.code + ")"
  }

  const DocsRoot := "airport_docs/"

  /** Upload path of a request's documents: one directory per airport name under the documents root. */
  function DocsPath(airportName: string, filename: string): (p: string)
    ensures |p| == |DocsRoot| + |airportName| + 1 + |filename|
    ensures p[..|DocsRoot|] == DocsRoot
    ensures p[|DocsRoot|..|DocsRoot| + |airportName|] == airportName
    ensures p[|DocsRoot| + |airportName|] == '/'
    ensures p[|p| - |filename|..] == filename
  {
    DocsRoot + airportName + "/" + filename
  }

  /** For airport names without '/', the upload path determines both the airport name and the file name. */
  lemma DocsPathInjective(n1: string, f1: string, n2: string, f2: string)
    requires '/' !in n1 && '/' !in n2
    requires DocsPath(n1, f1) == DocsPath(n2, f2)
    ensures n1 == n2 && f1 == f2
  {
  }

  /** SubscriptionRequest.STATUS_CHOICES. */
  datatype RequestStatus = Pending | ApprovedPendingPayment | Approved | Rejected {
    function Value(): string {
      match this
      case Pending => "pending"
      case ApprovedPendingPayment => "approved_pending_payment"
      case Approved => "approved"
      case Rejected => "rejected"
    }

    function Label(): string {
      match this
      case Pending => "Pending"
      case ApprovedPendingPayment => "Approved (Payment Pending)"
      case Approved => "Approved (Active)"
      case Rejected => "Rejected"
    }
  }

  const DefaultRequestStatus: RequestStatus := Pending

  /** Reads a stored status value back; values outside the choices are refused. */
  function ParseRequestStatus(s: string): (r: Option<RequestStatus>)
    ensures r.Some? ==> r.value.Value() == s
    ensures r.None? ==> forall st: RequestStatus :: st.Value() != s
  {
    if s == "pending" then Some(Pending)
    else if s == "approved_pending_payment" then Some(ApprovedPendingPayment)
    else if s == "approved" then Some(Approved)
    else if s == "rejected" then Some(Rejected)
    else None
  }

  /** SubscriptionRequest.PLAN_CHOICES. */
  datatype Plan = OneYear | ThreeYears | FiveYears {
    function Value(): string {
      match this
      case OneYear => "1_year"
      case ThreeYears => "3_years"
      case FiveYears => "5_years"
    }

    function Label(): string {
      match this
      case OneYear => "1 Year License"
      case ThreeYears => "3 Years License"
      case FiveYears => "5 Years License"
    }
  }

  const DefaultPlan: Plan := OneYear

  /** Reads a stored plan value back; values outside the choices are refused. */
  function ParsePlan(s: string): (r: Option<Plan>)
    ensures r.Some? ==> r.value.Value() == s
    ensures r.None? ==> forall p: Plan :: p.Value() != s
  {
    if s == "1_year" then Some(OneYear)
    else if s == "3_years" then Some(ThreeYears)
    else if s == "5_years" then Some(FiveYears)
    else None
  }

  /** A subscription request; the two documents hold the upload paths they were stored under. */
  datatype SubscriptionRequest = SubscriptionRequest(
    airportName: string, airportCode: string, country: string, city: string,
    adminEmail: string, adminPhone: string, selectedPlan: Plan,
    officialLicense: string, commercialRecord: Option<string>,
    status: RequestStatus, createdAt: Instant)

  /** A request as first saved from the signup form: status and plan from their defaults, documents under the airport's directory. */
  function NewSubscriptionRequest(
    airportName: string, airportCode: string, country: string, city: string,
    adminEmail: string, adminPhone: string, plan: Option<Plan>,
    licenseFile: string, recordFile: Option<string>, now: Instant): (r: SubscriptionRequest)
    ensures r.status == Pending
    ensures plan.None? ==> r.selectedPlan == OneYear
    ensures plan.Some? ==> r.selectedPlan == plan.value
    ensures r.officialLicense == DocsPath(airportName, licenseFile)
    ensures recordFile.None? <==> r.commercialRecord.None?
    ensures recordFile.Some? ==> r.commercialRecord == Some(DocsPath(airportName, recordFile.value))
    ensures r.airportName == airportName && r.airportCode == airportCode && r.adminEmail == adminEmail
      && r.adminPhone == adminPhone && r.country == country && r.city == city && r.createdAt == now
  {
    SubscriptionRequest(airportName, airportCode, country, city, adminEmail, adminPhone,
      plan.GetOr(DefaultPlan), DocsPath(airportName, licenseFile),
      match recordFile case None => None case Some(f) => Some(DocsPath(airportName, f)),
      DefaultRequestStatus, now)
  }

  /** SubscriptionRequest.__str__. */
  function RequestLabel(r: SubscriptionRequest): (s: string)
    ensures |s| == 9 + |r.airportName| + 2 + |r.status.Value()| + 1
    ensures s[..9] == "Request: "
    ensures s[9..9 + |r.airportName|] == r.airportName
    ensures s[|s| - |r.status.Value()| - 3..] == " (" + r.status.Value() + ")"
  {
    var prefix := "Request: " + r.airportName;
    var suffix := " (" + r.status.Value() + ")";
    assert (prefix + suffix)[|prefix|..] == suffix;
    prefix + suffix
  }

  datatype AirportSubscription = AirportSubscription(
    airportCode: string, planType: string, startAt: Instant, expireAt: Instant,
    maxEmployees: int, status: string)

  const DefaultMaxEmployees := 10
  const DefaultSubscriptionStatus := "active"

  /** A new subscription row: employee cap and status from their column defaults unless given. */
  function NewAirportSubscription(
    airportCode: string, planType: string, startAt: Instant, expireAt: Instant,
    maxEmployees: Option<int>, status: Option<string>): (s: AirportSubscription)
    ensures maxEmployees.None? ==> s.maxEmployees == 10
    ensures maxEmployees.Some? ==> s.maxEmployees == maxEmployees.value
    ensures status.None? ==> s.status == "active"
    ensures status.Some? ==> s.status == status.value
    ensures s.airportCode == airportCode && s.planType == planType && s.startAt == startAt && s.expireAt == expireAt
  {
    AirportSubscription(airportCode, planType, startAt, expireAt,
      maxEmployees.GetOr(DefaultMaxEmployees), status.GetOr(DefaultSubscriptionStatus))
  }

  /** AirportSubscription.__str__: the airport code, a dash, the plan. */
  function SubscriptionLabel(s: AirportSubscription): (r: string)
    ensures |r| == |s.airportCode| + 3 + |s.planType|
    ensures r[..|s.airportCode|] == s.airportCode
    ensures r[|s.airportCode|..|s.airportCode| + 3] == " - "
    ensures r[|r| - |s.planType|..] == s.planType
  {
    s.airportCode + " - " + s.planType
  }
}
