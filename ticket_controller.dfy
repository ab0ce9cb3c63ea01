/**
  The ticket endpoints: creation, the owner-scoped list with its filters and pages, lookup, update
  (with resolution stamping), deletion, adding a message, and the status overview.
*/
module TicketController {
  import opened Wrappers
  import opened TicketModel
  import opened AgentModel
  import opened Store
  import Lists
  import Paging
  import Text

  // ---------------------------------------------------------------------------------------------
  // createTicket

  /** The request body; enum fields arrive already parsed. */
  datatype NewTicketRequest = NewTicketRequest(
    title: Option<string>,
    description: Option<string>,
    priority: Option<Priority>,
    category: Option<string>,
    agentId: Option<string>,
    sessionId: Option<string>,
    customer: Option<Customer>,
    tags: Option<seq<string>>)

  /** The creation schema: title 1-200, description 1-2000 and category 1-100 characters, a
      non-empty agent id, customer name up to 100, phone up to 20 and an e-mail address when an
      e-mail is given, tags up to 50 each. */
  predicate ValidNewTicket(req: NewTicketRequest) {
    req.title.Some? && 1 <= |req.title.value| <= MaxTitle
    && req.description.Some? && 1 <= |req.description.value| <= TicketModel.MaxDescription
    && req.category.Some? && 1 <= |req.category.value| <= MaxCategory
    && req.agentId.Some? && |req.agentId.value| >= 1
    && (req.customer.Some? ==> CustomerValid(req.customer.value))
    && (req.customer.Some? && req.customer.value.email.Some? ==> Text.IsEmail(req.customer.value.email.value))
    && (req.tags.Some? ==> TagsValid(req.tags.value))
  }

  /** Every tag trimmed, as the schema's setter stores them. */
  function TrimAll(tags: seq<string>): (r: seq<string>)
    ensures |r| == |tags|
    ensures forall i :: 0 <= i < |r| ==> r[i] == Text.Trim(tags[i])
  {
    seq(|tags|, i requires 0 <= i < |tags| => Text.Trim(tags[i]))
  }

  /** Trimming never lengthens a string, so the length bounds survive the setters. */
  lemma TrimShortens(s: string)
    ensures |Text.Trim(s)| <= |s|
  {
  }

  /** The ticket `Ticket.create` builds from a validated request: the caller, when there is one,
      becomes both its user and its assignee. */
  function NewTicket(req: NewTicketRequest, caller: Option<Id>, now: int): Ticket
    requires ValidNewTicket(req)
  {
    Ticket(
      title := Text.Trim(req.title.value),
      description := Text.Trim(req.description.value),
      status := DefaultStatus,
      priority := if req.priority.Some? then req.priority.value else DefaultPriority,
      category := Text.Trim(req.category.value),
      agentId := req.agentId.value,
      userId := caller,
      assignedTo := caller,
      sessionId := if req.sessionId.Some? then Some(Text.Trim(req.sessionId.value)) else None,
      messages := [],
      resolution := None,
      tags := if req.tags.Some? then TrimAll(req.tags.value) else [],
      customer := StoredCustomer(if req.customer.Some? then req.customer.value else NoCustomer),
      analytics := NewAnalytics,
      createdAt := now,
      updatedAt := now)
  }

  /** A created ticket is valid exactly when its required strings survive trimming. */
  lemma NewTicketValid(req: NewTicketRequest, caller: Option<Id>, now: int)
    requires ValidNewTicket(req)
    ensures TicketValid(NewTicket(req, caller, now))
            <==> Text.Trim(req.title.value) != "" && Text.Trim(req.description.value) != ""
                 && Text.Trim(req.category.value) != ""
    ensures NewTicket(req, caller, now).userId == caller && NewTicket(req, caller, now).assignedTo == caller
    ensures NewTicket(req, caller, now).status == Open
    ensures NewTicket(req, caller, now).priority == if req.priority.Some? then req.priority.value else Medium
  {
    var t := NewTicket(req, caller, now);
    NewTicketBounded(req, caller, now);
    assert TicketValid(t) <==> t.title != "" && t.description != "" && t.category != "";
  }

  /** Everything but the non-emptiness of the three trimmed strings holds of every created ticket. */
  lemma NewTicketBounded(req: NewTicketRequest, caller: Option<Id>, now: int)
    requires ValidNewTicket(req)
    ensures var t := NewTicket(req, caller, now);
            t.title == Text.Trim(req.title.value) && |t.title| <= MaxTitle
            && t.description == Text.Trim(req.description.value) && |t.description| <= TicketModel.MaxDescription
            && t.category == Text.Trim(req.category.value) && |t.category| <= MaxCategory
            && MessagesValid(t.messages) && t.resolution.None? && TagsValid(t.tags)
            && CustomerValid(t.customer) && AnalyticsValid(t.analytics)
  {
    TrimShortens(req.title.value);
    TrimShortens(req.description.value);
    TrimShortens(req.category.value);
    if req.tags.Some? {
      TrimmedTagsValid(req.tags.value);
    }
    if req.customer.Some? {
      StoredCustomerValid(req.customer.value);
    }
  }

  lemma TrimmedTagsValid(tags: seq<string>)
    requires TagsValid(tags)
    ensures TagsValid(TrimAll(tags))
  {
    forall i | 0 <= i < |tags| ensures |TrimAll(tags)[i]| <= MaxTag {
      TrimShortens(tags[i]);
    }
  }

  lemma StoredCustomerValid(c: Customer)
    requires CustomerValid(c)
    ensures CustomerValid(StoredCustomer(c))
  {
    if c.name.Some? { TrimShortens(c.name.value); }
    if c.email.Some? && c.email.value != "" { Text.EmailSurvivesSetters(c.email.value); }
    if c.phone.Some? { TrimShortens(c.phone.value); }
  }

  /** The agent query: `{ _id }`, narrowed to the caller's agents when the caller is signed in. */
  predicate AgentReachable(agents: map<Id, Agent>, caller: Option<Id>, agentId: Id) {
    agentId in agents && (caller.Some? ==> agents[agentId].owner == caller.value)
  }

  /** `createTicket`: 400 on a schema violation, 404 when the agent is missing or, for a signed-in
      caller, not theirs, 500 when the stored document fails validation; otherwise the new ticket. */
  method CreateTicket(db: Database, caller: Option<Id>, req: NewTicketRequest, now: int, newId: Id)
    returns (r: Result<Ticket>)
    requires db.Valid() && newId !in db.tickets
    modifies db
    ensures db.Valid()
    ensures db.agents == old(db.agents) && db.users == old(db.users)
    ensures !ValidNewTicket(req) ==> r == Err(400)
    ensures ValidNewTicket(req) && !AgentReachable(old(db.agents), caller, req.agentId.value) ==> r == Err(404)
    ensures ValidNewTicket(req) && AgentReachable(old(db.agents), caller, req.agentId.value) ==>
              (r.Ok? <==> TicketValid(NewTicket(req, caller, now)))
    ensures r.Err? ==> db.tickets == old(db.tickets)
    ensures r.Ok? ==> ValidNewTicket(req) && r.value == NewTicket(req, caller, now)
                      && db.tickets == old(db.tickets)[newId := r.value]
  {
    if !ValidNewTicket(req) {
      return Err(400);
    }
    if !AgentReachable(db.agents, caller, req.agentId.value) {
      return Err(404);
    }
    var t := NewTicket(req, caller, now);
    if !TicketValid(t) {
      return Err(500);
    }
    PutTicket(db.tickets, newId, t);
    db.tickets := db.tickets[newId := t];
    r := Ok(t);
  }

  // ---------------------------------------------------------------------------------------------
  // getTickets

  /** The query string, with `page` and `limit` already read as integers when given. */
  datatype TicketQuery = TicketQuery(
    status: Option<Status>,
    priority: Option<Priority>,
    category: Option<string>,
    page: Option<int>,
    limit: Option<int>)

  /** The list response. `pages` is `None` where JavaScript would serialise `Infinity` as `null`. */
  datatype TicketPage = TicketPage(tickets: seq<Ticket>, count: int, total: int, pages: Option<int>, currentPage: int)

  /** The three filters together; a filter applies only when given (a category only when truthy). */
  predicate MatchesQuery(t: Ticket, q: TicketQuery) {
    (q.status.Some? ==> t.status == q.status.value)
    && (q.priority.Some? ==> t.priority == q.priority.value)
    && (Truthy(q.category) ==> t.category == q.category.value)
  }

  function PageOf(q: TicketQuery): int {
    if q.page.Some? then q.page.value else 1
  }

  function LimitOf(q: TicketQuery): int {
    if q.limit.Some? then q.limit.value else 10
  }

  function CreatedAtKey(tickets: map<Id, Ticket>): Id -> int {
    id => if id in tickets then tickets[id].createdAt else 0
  }

  /** The matching result in query order: every visible ticket that passes the filters, once each,
      newest first. */
  ghost predicate IsTicketListing(listing: seq<Id>, agents: map<Id, Agent>, tickets: map<Id, Ticket>, caller: Id, q: TicketQuery) {
    Lists.NoDuplicates(listing)
    && (forall id :: id in listing <==> TicketVisible(agents, tickets, caller, id) && MatchesQuery(tickets[id], q))
    && Lists.SortedDesc(listing, CreatedAtKey(tickets))
  }

  /** Collects, filters and orders the visible tickets; the result is a listing as defined above. */
  method ListTickets(agents: map<Id, Agent>, tickets: map<Id, Ticket>, caller: Id, q: TicketQuery)
    returns (listing: seq<Id>)
    ensures IsTicketListing(listing, agents, tickets, caller, q)
  {
    var ids := Store.Ids(tickets);
    var keep := (id: Id) => TicketVisible(agents, tickets, caller, id) && MatchesQuery(tickets[id], q);
    var matching := Lists.Filter(ids, keep);
    Lists.FilterNoDuplicates(ids, keep);
    listing := Lists.SortDesc(matching, CreatedAtKey(tickets));
    Lists.PermutationNoDuplicates(matching, listing);
    forall id ensures id in listing <==> id in matching {
      assert id in listing <==> id in multiset(listing);
      assert id in matching <==> id in multiset(matching);
    }
  }

  /** `getTickets`: the caller's page of the listing, `skip = (page-1)*limit`, with the total and
      `pages = ceil(total/limit)`; a negative skip is a database error (500). */
  method GetTickets(db: Database, caller: Id, q: TicketQuery) returns (r: Result<TicketPage>, listing: seq<Id>)
    ensures IsTicketListing(listing, db.agents, db.tickets, caller, q)
    ensures var page := PageOf(q);
            var limit := LimitOf(q);
            var w := Paging.Window(listing, (page - 1) * limit, limit);
            (w.Err? ==> r == Err(500))
            && (w.Ok? ==> forall i :: 0 <= i < |w.value| ==> w.value[i] in db.tickets)
            && (w.Ok? ==> r == Ok(TicketPage(TicketsOf(db.tickets, w.value), |w.value|, |listing|,
                                             Paging.Pages(|listing|, limit), page)))
  {
    listing := ListTickets(db.agents, db.tickets, caller, q);
    var page := PageOf(q);
    var limit := LimitOf(q);
    var w := Paging.Window(listing, (page - 1) * limit, limit);
    if w.Err? {
      return Err(500), listing;
    }
    Paging.WindowWithin(listing, (page - 1) * limit, limit);
    r := Ok(TicketPage(TicketsOf(db.tickets, w.value), |w.value|, |listing|, Paging.Pages(|listing|, limit), page));
  }

  // ---------------------------------------------------------------------------------------------
  // getTicket, deleteTicket

  /** `getTicket`: the ticket when one of the caller's agents holds it, 404 otherwise. */
  method GetTicket(db: Database, caller: Id, id: Id) returns (r: Result<Ticket>)
    ensures TicketVisible(db.agents, db.tickets, caller, id) ==> r == Ok(db.tickets[id])
    ensures !TicketVisible(db.agents, db.tickets, caller, id) ==> r == Err(404)
  {
    if TicketVisible(db.agents, db.tickets, caller, id) {
      r := Ok(db.tickets[id]);
    } else {
      r := Err(404);
    }
  }

  /** `deleteTicket`: removes the ticket when one of the caller's agents holds it, 404 otherwise. */
  method DeleteTicket(db: Database, caller: Id, id: Id) returns (r: Result<()>)
    requires db.Valid()
    modifies db
    ensures db.Valid()
    ensures db.agents == old(db.agents) && db.users == old(db.users)
    ensures TicketVisible(old(db.agents), old(db.tickets), caller, id) ==>
              r == Ok(()) && db.tickets == old(db.tickets) - {id}
    ensures !TicketVisible(old(db.agents), old(db.tickets), caller, id) ==>
              r == Err(404) && db.tickets == old(db.tickets)
  {
    if TicketVisible(db.agents, db.tickets, caller, id) {
      db.tickets := db.tickets - {id};
      r := Ok(());
    } else {
      r := Err(404);
    }
  }

  // ---------------------------------------------------------------------------------------------
  // updateTicket

  /** The update body; `resolution` carries the resolution summary when present. */
  datatype TicketUpdate = TicketUpdate(
    title: Option<string>,
    description: Option<string>,
    status: Option<Status>,
    priority: Option<Priority>,
    category: Option<string>,
    assignedTo: Option<Id>,
    tags: Option<seq<string>>,
    resolution: Option<string>)

  /** The update schema: only upper bounds (title 200, description 2000, category 100, tags 50,
      summary 1000). */
  predicate ValidTicketUpdate(u: TicketUpdate) {
    (u.title.Some? ==> |u.title.value| <= MaxTitle)
    && (u.description.Some? ==> |u.description.value| <= TicketModel.MaxDescription)
    && (u.category.Some? ==> |u.category.value| <= MaxCategory)
    && (u.tags.Some? ==> TagsValid(u.tags.value))
    && (u.resolution.Some? ==> |u.resolution.value| <= MaxSummary)
  }

  /** The update validators' `required` check: a given title, description or category that trims to
      nothing is refused. */
  predicate BlanksRequired(u: TicketUpdate) {
    (u.title.Some? && Text.Trim(u.title.value) == "")
    || (u.description.Some? && Text.Trim(u.description.value) == "")
    || (u.category.Some? && Text.Trim(u.category.value) == "")
  }

  /** The ticket after the update: given fields replace stored ones (strings trimmed by the setters),
      and a resolution is stamped with the caller and the time. */
  function ApplyTicketUpdate(t: Ticket, u: TicketUpdate, caller: Id, now: int): Ticket {
    t.(title := if u.title.Some? then Text.Trim(u.title.value) else t.title,
       description := if u.description.Some? then Text.Trim(u.description.value) else t.description,
       status := if u.status.Some? then u.status.value else t.status,
       priority := if u.priority.Some? then u.priority.value else t.priority,
       category := if u.category.Some? then Text.Trim(u.category.value) else t.category,
       assignedTo := if u.assignedTo.Some? then u.assignedTo else t.assignedTo,
       tags := if u.tags.Some? then TrimAll(u.tags.value) else t.tags,
       resolution := if u.resolution.Some? then Some(Resolution(u.resolution.value, Some(caller), Some(now))) else t.resolution,
       updatedAt := now)
  }

  /** Resolution stamping: a resolution in the update is recorded as resolved by the caller at `now`;
      without one the stored resolution is kept. Messages, agent, creation time and analytics never
      change. */
  lemma ResolutionStamped(t: Ticket, u: TicketUpdate, caller: Id, now: int)
    ensures var v := ApplyTicketUpdate(t, u, caller, now);
            (u.resolution.Some? ==> v.resolution == Some(Resolution(u.resolution.value, Some(caller), Some(now))))
            && (u.resolution.None? ==> v.resolution == t.resolution)
            && v.messages == t.messages && v.agentId == t.agentId && v.createdAt == t.createdAt
            && v.analytics == t.analytics
  {
  }

  /** A valid update that passes the `required` check keeps a valid ticket valid. */
  lemma UpdateKeepsValid(t: Ticket, u: TicketUpdate, caller: Id, now: int)
    requires TicketValid(t) && ValidTicketUpdate(u) && !BlanksRequired(u)
    ensures TicketValid(ApplyTicketUpdate(t, u, caller, now))
  {
    var v := ApplyTicketUpdate(t, u, caller, now);
    if u.title.Some? { TrimShortens(u.title.value); }
    if u.description.Some? { TrimShortens(u.description.value); }
    if u.category.Some? { TrimShortens(u.category.value); }
    if u.tags.Some? {
      forall i | 0 <= i < |v.tags| ensures |v.tags[i]| <= MaxTag {
        TrimShortens(u.tags.value[i]);
      }
    }
  }

  /** `updateTicket`: 400 on a schema violation, 500 when the update validators refuse a blank
      required field, 404 when none of the caller's agents holds the ticket; otherwise the updated
      ticket, stored. */
  method UpdateTicket(db: Database, caller: Id, id: Id, u: TicketUpdate, now: int) returns (r: Result<Ticket>)
    requires db.Valid()
    modifies db
    ensures db.Valid()
    ensures db.agents == old(db.agents) && db.users == old(db.users)
    ensures !ValidTicketUpdate(u) ==> r == Err(400)
    ensures ValidTicketUpdate(u) && BlanksRequired(u) ==> r == Err(500)
    ensures ValidTicketUpdate(u) && !BlanksRequired(u) && !TicketVisible(old(db.agents), old(db.tickets), caller, id) ==> r == Err(404)
    ensures r.Err? ==> db.tickets == old(db.tickets)
    ensures r.Ok? ==> TicketVisible(old(db.agents), old(db.tickets), caller, id)
                      && r.value == ApplyTicketUpdate(old(db.tickets)[id], u, caller, now)
                      && db.tickets == old(db.tickets)[id := r.value]
    ensures ValidTicketUpdate(u) && !BlanksRequired(u) && TicketVisible(old(db.agents), old(db.tickets), caller, id) ==> r.Ok?
  {
    if !ValidTicketUpdate(u) {
      return Err(400);
    }
    if BlanksRequired(u) {
      return Err(500);
    }
    if !TicketVisible(db.agents, db.tickets, caller, id) {
      return Err(404);
    }
    var v := ApplyTicketUpdate(db.tickets[id], u, caller, now);
    UpdateKeepsValid(db.tickets[id], u, caller, now);
    PutTicket(db.tickets, id, v);
    db.tickets := db.tickets[id := v];
    r := Ok(v);
  }

  // ---------------------------------------------------------------------------------------------
  // addMessage

  datatype MessageRequest = MessageRequest(content: Option<string>, sender: Option<Sender>)

  /** The message schema: content of 1 to 2000 characters. */
  predicate ValidMessageRequest(m: MessageRequest) {
    m.content.Some? && 1 <= |m.content.value| <= MaxMessage
  }

  /** The message stored: the sender defaults to the agent. */
  function RequestedMessage(m: MessageRequest, now: int): (msg: Message)
    requires ValidMessageRequest(m)
    ensures MessageValid(msg)
    ensures msg.sender == if m.sender.Some? then m.sender.value else FromAgent
  {
    Message(m.content.value, if m.sender.Some? then m.sender.value else FromAgent, now)
  }

  /** `$push` of one message plus `$inc` of `interactions`. */
  function AppendMessage(t: Ticket, msg: Message, now: int): Ticket {
    t.(messages := t.messages + [msg],
       analytics := t.analytics.(interactions := t.analytics.interactions + 1),
       updatedAt := now)
  }

  /** Appending keeps a valid ticket valid when the message is valid. */
  lemma AppendMessageValid(t: Ticket, msg: Message, now: int)
    requires TicketValid(t) && MessageValid(msg)
    ensures TicketValid(AppendMessage(t, msg, now))
  {
    var v := AppendMessage(t, msg, now);
    forall i | 0 <= i < |v.messages| ensures MessageValid(v.messages[i]) {
      if i < |t.messages| {
        assert v.messages[i] == t.messages[i];
      }
    }
  }

  /** `addMessage`: 400 on a schema violation, 404 when none of the caller's agents holds the ticket;
      otherwise exactly one message is appended at the end, one interaction is counted, and the
      reply carries the updated ticket and the message just appended. */
  method AddMessage(db: Database, caller: Id, id: Id, m: MessageRequest, now: int) returns (r: Result<(Ticket, Message)>)
    requires db.Valid()
    modifies db
    ensures db.Valid()
    ensures db.agents == old(db.agents) && db.users == old(db.users)
    ensures !ValidMessageRequest(m) ==> r == Err(400)
    ensures ValidMessageRequest(m) && !TicketVisible(old(db.agents), old(db.tickets), caller, id) ==> r == Err(404)
    ensures r.Err? ==> db.tickets == old(db.tickets)
    ensures r.Ok? ==>
      ValidMessageRequest(m) && TicketVisible(old(db.agents), old(db.tickets), caller, id)
      && var t := old(db.tickets)[id];
      var v := r.value.0;
      r.value.1 == RequestedMessage(m, now)
      && v.messages == t.messages + [r.value.1]
      && v.messages[|v.messages| - 1] == r.value.1
      && v.analytics.interactions == t.analytics.interactions + 1
      && v == AppendMessage(t, r.value.1, now)
      && db.tickets == old(db.tickets)[id := v]
    ensures ValidMessageRequest(m) && TicketVisible(old(db.agents), old(db.tickets), caller, id) ==> r.Ok?
  {
    if !ValidMessageRequest(m) {
      return Err(400);
    }
    if !TicketVisible(db.agents, db.tickets, caller, id) {
      return Err(404);
    }
    var msg := RequestedMessage(m, now);
    var v := AppendMessage(db.tickets[id], msg, now);
    AppendMessageValid(db.tickets[id], msg, now);
    PutTicket(db.tickets, id, v);
    db.tickets := db.tickets[id := v];
    r := Ok((v, v.messages[|v.messages| - 1]));
  }

  // ---------------------------------------------------------------------------------------------
  // getTicketAnalytics: the status overview

  datatype Overview = Overview(total: nat, open: nat, inProgress: nat, resolved: nat, closed: nat)

  const ZeroOverview := Overview(0, 0, 0, 0, 0)

  /** The `$group` sums: one count per status and the overall count. */
  function StatusCounts(ts: seq<Ticket>): (o: Overview)
    ensures o.total == |ts|
    decreases |ts|
  {
    if |ts| == 0 then ZeroOverview
    else
      var o := StatusCounts(ts[1..]);
      match ts[0].status
      case Open => o.(total := o.total + 1, open := o.open + 1)
      case InProgress => o.(total := o.total + 1, inProgress := o.inProgress + 1)
      case Resolved => o.(total := o.total + 1, resolved := o.resolved + 1)
      case Closed => o.(total := o.total + 1, closed := o.closed + 1)
  }

  /** How many tickets of the list have the given status. */
  function CountStatus(ts: seq<Ticket>, s: Status): nat
    decreases |ts|
  {
    if |ts| == 0 then 0 else (if ts[0].status == s then 1 else 0) + CountStatus(ts[1..], s)
  }

  /** The four counts are the per-status counts, so they always add up to the total; no tickets give
      the all-zero overview. */
  lemma {:induction false} StatusCountsPartition(ts: seq<Ticket>)
    ensures var o := StatusCounts(ts);
            o.open == CountStatus(ts, Open) && o.inProgress == CountStatus(ts, InProgress)
            && o.resolved == CountStatus(ts, Resolved) && o.closed == CountStatus(ts, Closed)
            && o.open + o.inProgress + o.resolved + o.closed == o.total
            && (|ts| == 0 ==> o == ZeroOverview)
    decreases |ts|
  {
    if |ts| > 0 {
      StatusCountsPartition(ts[1..]);
    }
  }

  /** `getTicketAnalytics`' overview over the caller's tickets (`listing` names them, once each). */
  method GetTicketAnalytics(db: Database, caller: Id) returns (o: Overview, listing: seq<Id>)
    ensures Lists.NoDuplicates(listing)
    ensures forall id :: id in listing <==> TicketVisible(db.agents, db.tickets, caller, id)
    ensures forall i :: 0 <= i < |listing| ==> listing[i] in db.tickets
    ensures o == StatusCounts(TicketsOf(db.tickets, listing))
  {
    var ids := Store.Ids(db.tickets);
    var agents, tickets := db.agents, db.tickets;
    var keep := (id: Id) => TicketVisible(agents, tickets, caller, id);
    listing := Lists.Filter(ids, keep);
    Lists.FilterNoDuplicates(ids, keep);
    o := StatusCounts(TicketsOf(db.tickets, listing));
  }
}
