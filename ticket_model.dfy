/**
  The ticket document: its enumerations, defaults and the bounds the schema enforces when a
  ticket is written with validation, plus the `age` virtual.
*/
module TicketModel {
  import opened Wrappers
  import Text

  datatype Status = Open | InProgress | Resolved | Closed
  datatype Priority = Low | Medium | High | Urgent
  datatype Sender = FromUser | FromAgent | FromSystem

  /** The status and priority a ticket gets when none is given. */
  const DefaultStatus: Status := Open
  const DefaultPriority: Priority := Medium

  const MaxTitle := 200
  const MaxDescription := 2000
  const MaxCategory := 100
  const MaxMessage := 2000
  const MaxSummary := 1000
  const MaxTag := 50
  const MaxCustomerName := 100
  const MaxPhone := 20

  /** Milliseconds in a day, the unit of `age`. */
  const MsPerDay := 1000 * 60 * 60 * 24

  /** One entry of a ticket's conversation log; `timestamp` is in milliseconds. */
  datatype Message = Message(content: string, sender: Sender, timestamp: int)

  datatype Resolution = Resolution(summary: string, resolvedBy: Option<Id>, resolvedAt: Option<int>)

  datatype Customer = Customer(name: Option<string>, email: Option<string>, phone: Option<string>)

  const NoCustomer := Customer(None, None, None)

  /** The customer fields as the schema's setters store them: every field trimmed, the e-mail address
      also lower-cased. */
  function StoredCustomer(c: Customer): Customer
  {
    Customer(
      if c.name.Some? then Some(Text.Trim(c.name.value)) else None,
      if c.email.Some? then Some(Text.ToLower(Text.Trim(c.email.value))) else None,
      if c.phone.Some? then Some(Text.Trim(c.phone.value)) else None)
  }

  /** Response and resolution times are in minutes; satisfaction is a 1-5 rating. */
  datatype TicketAnalytics = TicketAnalytics(
    responseTime: Option<real>,
    resolutionTime: Option<real>,
    satisfaction: Option<real>,
    interactions: int)

  /** The analytics of a new ticket: nothing measured, no interactions counted. */
  const NewAnalytics := TicketAnalytics(None, None, None, 0)

  datatype Ticket = Ticket(
    title: string,
    description: string,
    status: Status,
    priority: Priority,
    category: string,
    agentId: Id,
    userId: Option<Id>,
    assignedTo: Option<Id>,
    sessionId: Option<string>,
    messages: seq<Message>,
    resolution: Option<Resolution>,
    tags: seq<string>,
    customer: Customer,
    analytics: TicketAnalytics,
    createdAt: int,
    updatedAt: int)

  /** A stored message: content is required (so not empty) and at most 2000 characters. */
  predicate MessageValid(m: Message) {
    0 < |m.content| <= MaxMessage
  }

  predicate MessagesValid(ms: seq<Message>) {
    forall i :: 0 <= i < |ms| ==> MessageValid(ms[i])
  }

  predicate AnalyticsValid(a: TicketAnalytics) {
    (a.responseTime.Some? ==> a.responseTime.value >= 0.0)
    && (a.resolutionTime.Some? ==> a.resolutionTime.value >= 0.0)
    && (a.satisfaction.Some? ==> 1.0 <= a.satisfaction.value <= 5.0)
    && a.interactions >= 0
  }

  /** The stored customer info: name up to 100 and phone up to 20 characters, and an e-mail address
      that is empty (the `match` validator skips "") or an address. */
  predicate CustomerValid(c: Customer) {
    (c.name.Some? ==> |c.name.value| <= MaxCustomerName)
    && (c.email.Some? && c.email.value != "" ==> Text.IsEmail(c.email.value))
    && (c.phone.Some? ==> |c.phone.value| <= MaxPhone)
  }

  predicate TagsValid(tags: seq<string>) {
    forall i :: 0 <= i < |tags| ==> |tags[i]| <= MaxTag
  }

  /** Everything the schema checks when a ticket is validated: required strings are not empty, every
      length bound holds, every message is valid and every analytics figure is in range. */
  predicate TicketValid(t: Ticket) {
    0 < |t.title| <= MaxTitle
    && 0 < |t.description| <= MaxDescription
    && 0 < |t.category| <= MaxCategory
    && MessagesValid(t.messages)
    && (t.resolution.Some? ==> |t.resolution.value.summary| <= MaxSummary)
    && TagsValid(t.tags)
    && CustomerValid(t.customer)
    && AnalyticsValid(t.analytics)
  }

  /** The `age` virtual: whole days elapsed since creation, rounded down (`Math.floor`). */
  function AgeInDays(now: int, createdAt: int): (days: int)
    ensures days * MsPerDay <= now - createdAt < (days + 1) * MsPerDay
  {
    (now - createdAt) / MsPerDay
  }

  /** A ticket less than a day old has age 0; age never goes down as time passes. */
  lemma AgeMonotone(createdAt: int, now1: int, now2: int)
    requires now1 <= now2
    ensures AgeInDays(now1, createdAt) <= AgeInDays(now2, createdAt)
    ensures createdAt <= now1 < createdAt + MsPerDay ==> AgeInDays(now1, createdAt) == 0
  {
  }
}
