/** Support tickets: their choices and defaults, creation by operators, the two list pages, and the admin's actions. */
module Tickets {
  import opened Wrappers
  import opened Text
  import opened Time
  import opened Sequences
  import opened Accounts

  // ----- choices and records -----

  datatype TicketStatus = Open | Escalated | Closed | Rejected {
    function Value(): string {
      match this
      case Open => "Open"
      case Escalated => "Escalated"
      case Closed => "Closed"
      case Rejected => "Rejected"
    }
  }

  const DefaultTicketStatus: TicketStatus := Open

  datatype Category = Api | Sms | System | Other {
    function Value(): string {
      match this
      case Api => "API"
      case Sms => "SMS"
      case System => "System"
      case Other => "Other"
    }
  }

  datatype Priority = High | Medium | Low {
    function Value(): string {
      match this
      case High => "High"
      case Medium => "Medium"
      case Low => "Low"
    }
  }

  function ParseTicketStatus(s: string): (r: Option<TicketStatus>)
    ensures r.Some? ==> r.value.Value() == s
    ensures r.None? ==> forall st: TicketStatus :: st.Value() != s
  {
    if s == "Open" then Some(Open)
    else if s == "Escalated" then Some(Escalated)
    else if s == "Closed" then Some(Closed)
    else if s == "Rejected" then Some(Rejected)
    else None
  }

  function ParseCategory(s: string): (r: Option<Category>)
    ensures r.Some? ==> r.value.Value() == s
    ensures r.None? ==> forall c: Category :: c.Value() != s
  {
    if s == "API" then Some(Api)
    else if s == "SMS" then Some(Sms)
    else if s == "System" then Some(System)
    else if s == "Other" then Some(Other)
    else None
  }

  function ParsePriority(s: string): (r: Option<Priority>)
    ensures r.Some? ==> r.value.Value() == s
    ensures r.None? ==> forall p: Priority :: p.Value() != s
  {
    if s == "High" then Some(High)
    else if s == "Medium" then Some(Medium)
    else if s == "Low" then Some(Low)
    else None
  }

  /** A ticket; airport, creator and assignee are primary keys. */
  datatype Ticket = Ticket(
    id: nat, airport: nat, createdBy: nat, assignedTo: Option<nat>,
    title: string, category: Category, description: string, priority: Priority,
    status: TicketStatus, createdAt: Instant, updatedAt: Instant)

  datatype TicketComment = TicketComment(id: nat, ticket: nat, user: nat, comment: string, commentedAt: Instant)

  function TicketKey(t: Ticket): nat {
    t.id
  }

  function CommentKey(c: TicketComment): nat {
    c.id
  }

  ghost predicate UniqueTicketIds(tickets: seq<Ticket>) {
    forall i, j :: 0 <= i < j < |tickets| ==> tickets[i].id != tickets[j].id
  }

  // ----- forms -----

  /** The ticket form's fields as posted; None when a field is absent. */
  datatype TicketFormInput = TicketFormInput(
    title: Option<string>, category: Option<string>, priority: Option<string>, description: Option<string>)

  /** The cleaned values of a valid ticket form. */
  datatype TicketDraft = TicketDraft(title: string, category: Category, priority: Priority, description: string)

  const TitleMaxLength := 200

  /** A form text field refuses any value holding a NUL character. */
  predicate NoNul(s: string) {
    '\0' !in s
  }

  /** TicketForm.is_valid(): text fields are stripped, required and free of NUL (the title at most 200 characters); the two choice fields must name a choice. */
  function ValidateTicketForm(input: TicketFormInput): (r: Option<TicketDraft>)
    ensures r.Some? <==>
      && Strip(input.title.GetOr("")) != "" && |Strip(input.title.GetOr(""))| <= TitleMaxLength
      && NoNul(Strip(input.title.GetOr("")))
      && ParseCategory(input.category.GetOr("")).Some?
      && ParsePriority(input.priority.GetOr("")).Some?
      && Strip(input.description.GetOr("")) != "" && NoNul(Strip(input.description.GetOr("")))
    ensures r.Some? ==>
      && r.value.title == Strip(input.title.GetOr(""))
      && r.value.category.Value() == input.category.GetOr("")
      && r.value.priority.Value() == input.priority.GetOr("")
      && r.value.description == Strip(input.description.GetOr(""))
  {
    var title := Strip(input.title.GetOr(""));
    var description := Strip(input.description.GetOr(""));
    var category := ParseCategory(input.category.GetOr(""));
    var priority := ParsePriority(input.priority.GetOr(""));
    if title != "" && |title| <= TitleMaxLength && NoNul(title) && category.Some? && priority.Some?
      && description != "" && NoNul(description) then
      Some(TicketDraft(title, category.value, priority.value, description))
    else None
  }

  /** CommentForm.is_valid(): the comment is stripped and must be non-empty and free of NUL; the cleaned value is the stripped text. */
  function ValidateComment(text: Option<string>): (r: Option<string>)
    ensures r.Some? <==> Strip(text.GetOr("")) != "" && NoNul(Strip(text.GetOr("")))
    ensures r.Some? ==> r.value == Strip(text.GetOr("")) && r.value[0] != ' '
  {
    var c := Strip(text.GetOr(""));
    if c != "" && NoNul(c) then Some(c) else None
  }

  /** Stripping removes only whitespace, so a value is NUL-free after stripping exactly when it was before. */
  lemma NulSurvivesStrip(s: string)
    ensures NoNul(Strip(s)) <==> NoNul(s)
  {
    var r := Strip(s);
    var i: nat :| StrippedAt(s, r, i);
    if !NoNul(s) {
      var k :| 0 <= k < |s| && s[k] == '\0';
      assert i <= k < i + |r|;
      assert r[k - i] == '\0';
    }
  }

  // ----- create_ticket -----

  /** The row a valid form becomes: stamped with its creator and the creator's airport, status from its default. */
  function NewTicket(id: nat, user: User, d: TicketDraft, now: Instant): (t: Ticket)
    requires HasAirport(user)
    ensures t.createdBy == user.id && t.airport == user.airportId.value
    ensures t.status == Open && t.assignedTo == None
    ensures t.createdAt == now && t.updatedAt == now && t.id == id
    ensures t.title == d.title && t.category == d.category && t.priority == d.priority && t.description == d.description
  {
    Ticket(id, user.airportId.value, user.id, None, d.title, d.category, d.description, d.priority,
      DefaultTicketStatus, now, now)
  }

  datatype CreateRequest = ShowTicketForm | PostTicket(form: TicketFormInput)

  datatype CreateOutcome = AccessDenied | FormPage | Created(ticket: Ticket)

  // ----- the two lists -----

  /** Sort key for "-createdAt": newest first. */
  function NewestFirst(t: Ticket): int {
    -t.createdAt
  }

  datatype TicketList = SentHome | Listing(tickets: seq<Ticket>)

  /** The tickets satisfying p, newest first, as a permutation of the matching tickets. */
  function ScopedNewestFirst(tickets: seq<Ticket>, p: Ticket -> bool): (r: seq<Ticket>)
    ensures multiset(r) == multiset(Filter(tickets, p))
    ensures forall t :: t in r <==> t in tickets && p(t)
    ensures forall i, j :: 0 <= i < j < |r| ==> r[i].createdAt >= r[j].createdAt
  {
    var r := SortBy(Filter(tickets, p), NewestFirst);
    assert forall t :: t in r <==> t in multiset(r);
    assert forall t :: t in Filter(tickets, p) <==> t in multiset(Filter(tickets, p));
    assert forall i, j :: 0 <= i < j < |r| ==> NewestFirst(r[i]) <= NewestFirst(r[j]);
    r
  }

  /** operator_tickets_list: an operator sees exactly the tickets they created, newest first. */
  function OperatorTickets(user: User, tickets: seq<Ticket>): (r: TicketList)
    ensures r.SentHome? <==> user.role != Operator
    ensures r.Listing? ==>
      && (forall t :: t in r.tickets <==> t in tickets && t.createdBy == user.id)
      && multiset(r.tickets) == multiset(Filter(tickets, (t: Ticket) => t.createdBy == user.id))
      && (forall i, j :: 0 <= i < j < |r.tickets| ==> r.tickets[i].createdAt >= r.tickets[j].createdAt)
  {
    if user.role != Operator then SentHome
    else Listing(ScopedNewestFirst(tickets, (t: Ticket) => t.createdBy == user.id))
  }

  /** admin_tickets_list: an airport admin with an airport sees exactly that airport's tickets, newest first. */
  function AdminTickets(user: User, tickets: seq<Ticket>): (r: TicketList)
    ensures r.SentHome? <==> !(user.role == AirportAdmin && HasAirport(user))
    ensures r.Listing? ==>
      && (forall t :: t in r.tickets <==> t in tickets && t.airport == user.airportId.value)
      && multiset(r.tickets) == multiset(Filter(tickets, (t: Ticket) => t.airport == user.airportId.value))
      && (forall i, j :: 0 <= i < j < |r.tickets| ==> r.tickets[i].createdAt >= r.tickets[j].createdAt)
  {
    if user.role != AirportAdmin || !HasAirport(user) then SentHome
    else Listing(ScopedNewestFirst(tickets, (t: Ticket) => t.airport == user.airportId.value))
  }

  // ----- admin_ticket_detail -----

  /** `get_object_or_404(Ticket, pk=pk, airport_id=user.airport_id)` after the role check. */
  datatype TicketAccess = NotAdmin | Missing | Found(index: nat)

  function FindTicket(user: User, tickets: seq<Ticket>, pk: nat): (a: TicketAccess)
    ensures a.NotAdmin? <==> user.role != AirportAdmin
    ensures a.Found? ==> a.index < |tickets| && tickets[a.index].id == pk && Some(tickets[a.index].airport) == user.airportId
    ensures a.Missing? ==> forall k :: 0 <= k < |tickets| ==> !(tickets[k].id == pk && Some(tickets[k].airport) == user.airportId)
  {
    if user.role != AirportAdmin then NotAdmin
    else
      match FindFirst(tickets, (t: Ticket) => t.id == pk && Some(t.airport) == user.airportId)
      case None => Missing
      case Some(i) => Found(i)
  }

  datatype DetailRequest = ShowTicket | PostAction(action: Option<string>, comment: Option<string>)

  datatype DetailOutcome = NotAirportAdmin | TicketNotFound | TicketPage(ticket: Ticket, comments: seq<TicketComment>) | BackToTicket

  /** What a posted action does: the ticket afterwards and the comments it appends. */
  datatype ActionEffect = ActionEffect(ticket: Ticket, comments: seq<TicketComment>)

  /** escalate and reject overwrite the status whatever it was (saving also stamps updatedAt); comment adds one note when the form is valid; anything else does nothing. */
  function ApplyAction(t: Ticket, action: Option<string>, text: Option<string>, user: User, now: Instant, commentId: nat): (e: ActionEffect)
    ensures action == Some("escalate") ==> e == ActionEffect(t.(status := Escalated, updatedAt := now), [])
    ensures action == Some("reject") ==> e == ActionEffect(t.(status := Rejected, updatedAt := now), [])
    ensures action == Some("comment") ==>
      && e.ticket == t
      && (e.comments != [] <==> ValidateComment(text).Some?)
      && (e.comments != [] ==> e.comments == [TicketComment(commentId, t.id, user.id, ValidateComment(text).value, now)])
    ensures action !in {Some("escalate"), Some("reject"), Some("comment")} ==> e == ActionEffect(t, [])
    ensures |e.comments| <= 1 && e.ticket.(status := t.status, updatedAt := t.updatedAt) == t
  {
    if action == Some("escalate") then ActionEffect(t.(status := Escalated, updatedAt := now), [])
    else if action == Some("reject") then ActionEffect(t.(status := Rejected, updatedAt := now), [])
    else if action == Some("comment") then
      match ValidateComment(text)
      case Some(c) => ActionEffect(t, [TicketComment(commentId, t.id, user.id, c, now)])
      case None => ActionEffect(t, [])
    else ActionEffect(t, [])
  }

  function CommentedAt(c: TicketComment): int {
    c.commentedAt
  }

  /** The notes shown with a ticket: its comments, oldest first. */
  function CommentsOf(comments: seq<TicketComment>, ticket: nat): (r: seq<TicketComment>)
    ensures forall c :: c in r <==> c in comments && c.ticket == ticket
    ensures forall i, j :: 0 <= i < j < |r| ==> r[i].commentedAt <= r[j].commentedAt
    ensures forall c :: multiset(r)[c] == if c.ticket == ticket then multiset(comments)[c] else 0
  {
    var mine := Filter(comments, (c: TicketComment) => c.ticket == ticket);
    FilterCounts(comments, (c: TicketComment) => c.ticket == ticket);
    var r := SortBy(mine, CommentedAt);
    assert forall c :: c in r <==> c in multiset(r);
    assert forall c :: c in mine <==> c in multiset(mine);
    assert forall i, j :: 0 <= i < j < |r| ==> CommentedAt(r[i]) <= CommentedAt(r[j]);
    r
  }

  /** The ticket and comment tables. */
  class TicketDesk {
    var tickets: seq<Ticket>
    var comments: seq<TicketComment>

    ghost predicate Valid()
      reads this
    {
      UniqueTicketIds(tickets)
    }

    constructor (tickets: seq<Ticket>, comments: seq<TicketComment>)
      requires UniqueTicketIds(tickets)
      ensures Valid() && this.tickets == tickets && this.comments == comments
    {
      this.tickets := tickets;
      this.comments := comments;
    }

    /** create_ticket: only an operator with an airport; a valid posted form becomes one new ticket stamped with them. */
    method CreateTicket(user: User, request: CreateRequest, now: Instant) returns (r: CreateOutcome)
      requires Valid()
      modifies this`tickets
      ensures Valid()
      ensures !IsAirportOperator(user) ==> r == AccessDenied && tickets == old(tickets)
      ensures IsAirportOperator(user) && (request.ShowTicketForm? || ValidateTicketForm(request.form).None?) ==>
        r == FormPage && tickets == old(tickets)
      ensures IsAirportOperator(user) && request.PostTicket? && ValidateTicketForm(request.form).Some? ==>
        && r == Created(NewTicket(NextKey(old(tickets), TicketKey), user, ValidateTicketForm(request.form).value, now))
        && tickets == old(tickets) + [r.ticket]
    {
      if !IsAirportOperator(user) {
        return AccessDenied;
      }
      if request.ShowTicketForm? {
        return FormPage;
      }
      var draft := ValidateTicketForm(request.form);
      if draft.None? {
        return FormPage;
      }
      var id := NextKey(tickets, TicketKey);
      var ticket := NewTicket(id, user, draft.value, now);
      tickets := tickets + [ticket];
      r := Created(ticket);
    }

    /** admin_ticket_detail: an airport admin opens a ticket of their own airport, then shows it or applies the posted action. */
    method AdminTicketDetail(user: User, pk: nat, request: DetailRequest, now: Instant) returns (r: DetailOutcome)
      requires Valid()
      modifies this
      ensures Valid()
      ensures var a := FindTicket(user, old(tickets), pk);
        && (a.NotAdmin? ==> r == NotAirportAdmin)
        && (a.Missing? ==> r == TicketNotFound)
        && (a.Found? && request.ShowTicket? ==> r == TicketPage(old(tickets)[a.index], CommentsOf(old(comments), pk)))
        && (!(a.Found? && request.PostAction?) ==> tickets == old(tickets) && comments == old(comments))
        && (a.Found? && request.PostAction? ==>
              var e := ApplyAction(old(tickets)[a.index], request.action, request.comment, user, now,
                NextKey(old(comments), CommentKey));
              && r == BackToTicket
              && tickets == old(tickets)[a.index := e.ticket]
              && comments == old(comments) + e.comments)
    {
      var access := FindTicket(user, tickets, pk);
      if access.NotAdmin? { return NotAirportAdmin; }
      if access.Missing? { return TicketNotFound; }
      var i := access.index;
      var ticket := tickets[i];
      if request.ShowTicket? {
        return TicketPage(ticket, CommentsOf(comments, pk));
      }
      var action := request.action;
      if action == Some("escalate") {
        ticket := ticket.(status := Escalated, updatedAt := now);
        tickets := tickets[i := ticket];
      } else if action == Some("reject") {
        ticket := ticket.(status := Rejected, updatedAt := now);
        tickets := tickets[i := ticket];
      } else if action == Some("comment") {
        var text := ValidateComment(request.comment);
        if text.Some? {
          comments := comments + [TicketComment(NextKey(comments, CommentKey), ticket.id, user.id, text.value, now)];
        }
      }
      r := BackToTicket;
    }
  }
}
