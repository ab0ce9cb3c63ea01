/**
  The three MongoDB collections the handlers read and write, held as maps from document id to
  document, and the caller identity the authentication middleware attaches to a request.
*/
module Store {
  import opened Wrappers
  import opened TicketModel
  import opened AgentModel
  import Lists

  /** `role`: 'admin' or 'user'. */
  datatype Role = Admin | Member
  datatype Plan = Free | Pro | Enterprise
  /** 'active' or 'inactive', for an account and for a subscription. */
  datatype Activity = Active | Inactive

  datatype Subscription = Subscription(plan: Option<Plan>, status: Option<Activity>)

  /** A user account, without its password hash (every handler here drops it). */
  datatype User = User(
    name: string,
    email: string,
    role: Role,
    status: Option<Activity>,
    subscription: Subscription,
    createdAt: int)

  /** The authenticated caller of a private endpoint. */
  datatype Caller = Caller(id: Id, role: Role)

  /** The collections. Agents, tickets and users live in one object because several handlers read
      one collection to decide how to write another. */
  class Database {
    var agents: map<Id, Agent>
    var tickets: map<Id, Ticket>
    var users: map<Id, User>

    /** What validation and the unique index guarantee about every stored document. */
    ghost predicate Valid()
      reads this
    {
      AgentsValid(agents) && TicketsValid(tickets)
    }

    constructor ()
      ensures agents == map[] && tickets == map[] && users == map[]
      ensures Valid()
    {
      agents := map[];
      tickets := map[];
      users := map[];
    }
  }

  /** Every agent valid, and upstream agent ids unique. */
  predicate AgentsValid(agents: map<Id, Agent>) {
    UniqueLyzrIds(agents) && forall id :: id in agents ==> AgentValid(agents[id])
  }

  predicate TicketsValid(tickets: map<Id, Ticket>) {
    forall id :: id in tickets ==> TicketValid(tickets[id])
  }

  /** Storing a valid ticket keeps the collection valid. */
  lemma PutTicket(tickets: map<Id, Ticket>, id: Id, t: Ticket)
    requires TicketsValid(tickets) && TicketValid(t)
    ensures TicketsValid(tickets[id := t])
  {
  }

  /** Replacing an agent by a valid one with the same upstream configuration keeps the collection
      valid. */
  lemma ReplaceAgent(agents: map<Id, Agent>, id: Id, b: Agent)
    requires AgentsValid(agents) && id in agents && AgentValid(b)
    requires b.lyzrConfig.agentId == agents[id].lyzrConfig.agentId
    ensures AgentsValid(agents[id := b])
  {
  }

  /** Storing a valid agent whose upstream id no other agent uses keeps the collection valid, both
      for a new document and for a replacement. */
  lemma PutAgent(agents: map<Id, Agent>, id: Id, b: Agent)
    requires AgentsValid(agents) && AgentValid(b)
    requires forall o :: o in agents && o != id ==> agents[o].lyzrConfig.agentId != b.lyzrConfig.agentId
    ensures AgentsValid(agents[id := b])
  {
  }

  /** Changing only an agent's counters and its `updatedAt` stamp keeps the collection valid. */
  lemma ReplaceAnalytics(agents: map<Id, Agent>, id: Id, an: AgentAnalytics, at: int)
    requires AgentsValid(agents) && id in agents
    ensures AgentsValid(agents[id := agents[id].(analytics := an, updatedAt := at)])
  {
    var a := agents[id];
    var b := a.(analytics := an, updatedAt := at);
    assert b.name == a.name && b.description == a.description && b.lyzrConfig == a.lyzrConfig;
    assert b.widget == a.widget && b.domains == a.domains;
    ReplaceAgent(agents, id, b);
  }

  /** `{ _id: id, owner: caller }` matches an agent. */
  predicate Owns(agents: map<Id, Agent>, caller: Id, agentId: Id) {
    agentId in agents && agents[agentId].owner == caller
  }

  /** `{ _id: id, agentId: { $in: <the caller's agent ids> } }` matches a ticket. */
  predicate TicketVisible(agents: map<Id, Agent>, tickets: map<Id, Ticket>, caller: Id, ticketId: Id) {
    ticketId in tickets && Owns(agents, caller, tickets[ticketId].agentId)
  }

  /** The documents behind a list of ids. */
  function TicketsOf(tickets: map<Id, Ticket>, ids: seq<Id>): (r: seq<Ticket>)
    requires forall i :: 0 <= i < |ids| ==> ids[i] in tickets
    ensures |r| == |ids|
    ensures forall i :: 0 <= i < |ids| ==> r[i] == tickets[ids[i]]
  {
    seq(|ids|, i requires 0 <= i < |ids| => tickets[ids[i]])
  }

  /** A cursor over a collection: every id of the map exactly once, in some order. */
  method Ids<T>(m: map<Id, T>) returns (ids: seq<Id>)
    ensures Lists.NoDuplicates(ids)
    ensures forall id :: id in ids <==> id in m
  {
    ids := [];
    var rest := m.Keys;
    while rest != {}
      invariant forall id :: id in m <==> id in ids || id in rest
      invariant forall id :: id in ids ==> id !in rest
      invariant Lists.NoDuplicates(ids)
      decreases |rest|
    {
      var k :| k in rest;
      ids := ids + [k];
      rest := rest - {k};
    }
  }
}
