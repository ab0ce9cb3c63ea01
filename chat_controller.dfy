/**
  The public chat endpoint (`POST /api/chat/message`): it relays a visitor's message to the agent's
  upstream model, threads the exchange into the session's ticket and bumps the agent's counters.
*/
module ChatController {
  import opened Wrappers
  import opened TicketModel
  import opened AgentModel
  import opened Store
  import Lyzr
  import Text

  /** The request body. Fields are absent when the client left them out; `customer` is the raw,
      unvalidated `customerInfo` object. */
  datatype ChatRequest = ChatRequest(
    message: Option<string>,
    sessionId: Option<string>,
    agentId: Option<string>,
    customer: Option<Customer>)

  /** The success body's `data`. */
  datatype ChatReply = ChatReply(message: string, sessionId: string, agentId: Id, timestamp: int)

  /** The schema: a non-empty message and a non-empty agent id; the session id is optional. */
  predicate ValidChat(req: ChatRequest) {
    req.message.Some? && |req.message.value| >= 1 && req.agentId.Some? && |req.agentId.value| >= 1
  }

  /** The ticket title for a new session: the message itself up to 50 characters, otherwise its
      first 50 characters followed by "...". */
  function SessionTitle(message: string): (t: string)
    ensures |message| <= 50 ==> t == message
    ensures |message| > 50 ==> |t| == 53 && t[..50] == message[..50] && t[50..] == "..."
  {
    if |message| > 50 then message[..50] + "..." else message
  }

  /** The session id the exchange is filed under: the caller's when truthy, otherwise one minted from
      the upstream agent id and the caller's IP (or 'anonymous'). */
  function FinalSessionId(sessionId: Option<string>, lyzrAgentId: string, ip: Option<string>, now: nat): (s: string)
    ensures Truthy(sessionId) ==> s == sessionId.value
    ensures !Truthy(sessionId) ==> s == Lyzr.SessionId(lyzrAgentId, OrElse(ip, "anonymous"), now)
  {
    OrElse(sessionId, Lyzr.SessionId(lyzrAgentId, OrElse(ip, "anonymous"), now))
  }

  /** The ticket a first message creates, as stored (the schema's setters trim title, description,
      session id and customer fields). */
  function SessionTicket(message: string, reply: string, agentId: Id, sessionId: string, customer: Customer, now: int): Ticket {
    Ticket(
      title := Text.Trim(SessionTitle(message)),
      description := Text.Trim(message),
      status := DefaultStatus,
      priority := DefaultPriority,
      category := "General Support",
      agentId := agentId,
      userId := None,
      assignedTo := None,
      sessionId := Some(Text.Trim(sessionId)),
      messages := [Message(message, FromUser, now), Message(reply, FromAgent, now)],
      resolution := None,
      tags := [],
      customer := StoredCustomer(customer),
      analytics := NewAnalytics,
      createdAt := now,
      updatedAt := now)
  }

  /** A new session's ticket holds the exchange in order and is filed under the session. */
  lemma SessionTicketShape(message: string, reply: string, agentId: Id, sessionId: string, customer: Customer, now: int)
    ensures var t := SessionTicket(message, reply, agentId, sessionId, customer, now);
            t.messages == [Message(message, FromUser, now), Message(reply, FromAgent, now)]
            && t.description == Text.Trim(message) && t.category == "General Support"
            && t.status == Open && t.priority == Medium && t.analytics.interactions == 0
            && t.sessionId == Some(Text.Trim(sessionId)) && t.agentId == agentId
  {
  }

  /** `$push` of the exchange plus `$inc` of `interactions`, at time `now`. */
  function AppendExchange(t: Ticket, message: string, reply: string, now: int): Ticket {
    t.(messages := t.messages + [Message(message, FromUser, now), Message(reply, FromAgent, now)],
       analytics := t.analytics.(interactions := t.analytics.interactions + 1),
       updatedAt := now)
  }

  /** Appending grows the log by exactly the two new entries, user first, keeps every earlier entry,
      counts one interaction and changes nothing else. */
  lemma AppendExchangeShape(t: Ticket, message: string, reply: string, now: int)
    ensures var u := AppendExchange(t, message, reply, now);
            |u.messages| == |t.messages| + 2
            && u.messages[..|t.messages|] == t.messages
            && u.messages[|t.messages|] == Message(message, FromUser, now)
            && u.messages[|t.messages| + 1] == Message(reply, FromAgent, now)
            && u.analytics.interactions == t.analytics.interactions + 1
            && u == t.(messages := u.messages, analytics := u.analytics, updatedAt := now)
  {
  }

  /** The append keeps a valid ticket valid exactly when both new messages are valid. */
  lemma {:induction false} AppendExchangeValid(t: Ticket, message: string, reply: string, now: int)
    requires TicketValid(t)
    ensures TicketValid(AppendExchange(t, message, reply, now))
            <==> MessageValid(Message(message, FromUser, now)) && MessageValid(Message(reply, FromAgent, now))
  {
    var u := AppendExchange(t, message, reply, now);
    var n := |t.messages|;
    if MessageValid(Message(message, FromUser, now)) && MessageValid(Message(reply, FromAgent, now)) {
      forall i | 0 <= i < |u.messages| ensures MessageValid(u.messages[i]) {
        if i < n {
          assert u.messages[i] == t.messages[i];
        }
      }
    } else {
      assert !MessageValid(u.messages[n]) || !MessageValid(u.messages[n + 1]);
    }
  }

  /** `$inc` of the agent's counters: one more message, one more chat only when the caller brought
      no session id, and `lastUsed` set to now. */
  function CountChat(a: Agent, sessionId: Option<string>, now: int): Agent {
    a.(analytics := a.analytics.(
         totalMessages := a.analytics.totalMessages + 1,
         totalChats := a.analytics.totalChats + (if Truthy(sessionId) then 0 else 1),
         lastUsed := Some(now)),
       updatedAt := now)
  }

  /** Counting a chat touches only the counters: every validated field, and so validity, is kept. */
  lemma CountChatKeepsAgent(a: Agent, sessionId: Option<string>, now: int)
    ensures var b := CountChat(a, sessionId, now);
            b.lyzrConfig == a.lyzrConfig && b.owner == a.owner && b.isActive == a.isActive
            && b.analytics.totalMessages == a.analytics.totalMessages + 1
            && (Truthy(sessionId) ==> b.analytics.totalChats == a.analytics.totalChats)
            && (!Truthy(sessionId) ==> b.analytics.totalChats == a.analytics.totalChats + 1)
            && (AgentValid(a) <==> AgentValid(b))
  {
  }

  /** The upstream reply for this request, or `None` when the upstream call failed. */
  function UpstreamReply(a: Agent, message: string, sessionId: string, ip: Option<string>, env: Lyzr.Env,
                         post: Lyzr.Request -> Lyzr.Upstream): Option<string>
  {
    var svc := Lyzr.NewService(Some(a.lyzrConfig.apiEndpoint), Some(a.lyzrConfig.apiKey), Some(a.lyzrConfig.agentId), env);
    Lyzr.SendMessage(svc, post, message, OrElse(ip, "anonymous"), sessionId, Some(a.lyzrConfig.agentId))
  }

  /** A stored agent's endpoint, key and upstream id are all non-empty, so the client is built from
      the agent's own configuration whatever the environment holds: the request goes to the agent's
      endpoint with the agent's key, from the caller's IP (or 'anonymous'), naming the agent's
      upstream id. */
  lemma UpstreamRequestOfAgent(a: Agent, message: string, sessionId: string, ip: Option<string>,
                               env: Lyzr.Env, post: Lyzr.Request -> Lyzr.Upstream)
    requires AgentValid(a)
    ensures var body := Lyzr.Payload(OrElse(ip, "anonymous"), Some(a.lyzrConfig.agentId), sessionId, message);
            var q := Lyzr.Request(Some(a.lyzrConfig.apiEndpoint), Some(a.lyzrConfig.apiKey), body);
            var r := UpstreamReply(a, message, sessionId, ip, env, post);
            (r.None? <==> post(q).Failed?) && (r.Some? ==> r.value == post(q).response)
  {
  }

  /** A ticket filed under the (stored, so trimmed) session id. */
  predicate FiledUnder(tickets: map<Id, Ticket>, id: Id, sessionId: string) {
    id in tickets && tickets[id].sessionId == Some(Text.Trim(sessionId))
  }

  /** The successful outcome: the agent was found and active, the upstream model replied, the reply
      went back with the final session id, the agent's counters were bumped, and the exchange was
      appended to the ticket already filed under the session or filed in a new ticket when there
      was none. */
  ghost predicate Relayed(agents0: map<Id, Agent>, tickets0: map<Id, Ticket>, agents: map<Id, Agent>, tickets: map<Id, Ticket>,
                          req: ChatRequest, ip: Option<string>, env: Lyzr.Env, post: Lyzr.Request -> Lyzr.Upstream,
                          now: nat, newTicketId: Id, threadId: Id, out: ChatReply)
  {
    ValidChat(req) && req.agentId.value in agents0 && agents0[req.agentId.value].isActive
    && var aid := req.agentId.value;
    var message := req.message.value;
    var a := agents0[aid];
    var sid := FinalSessionId(req.sessionId, a.lyzrConfig.agentId, ip, now);
    var reply := UpstreamReply(a, message, sid, ip, env, post);
    reply.Some?
    && out == ChatReply(reply.value, sid, aid, now)
    && agents == agents0[aid := CountChat(a, req.sessionId, now)]
    && Filed(tickets0, tickets, message, reply.value, aid, sid, CustomerOf(req), now, newTicketId, threadId)
  }

  /** The exchange went to the ticket already filed under the session, or to a new ticket when there
      was none. */
  ghost predicate Filed(tickets0: map<Id, Ticket>, tickets: map<Id, Ticket>, message: string, reply: string,
                        aid: Id, sid: string, customer: Customer, now: nat, newTicketId: Id, threadId: Id)
  {
    FiledUnder(tickets, threadId, sid)
    && if threadId in tickets0 then
         FiledUnder(tickets0, threadId, sid)
         && tickets == tickets0[threadId := AppendExchange(tickets0[threadId], message, reply, now)]
       else
         threadId == newTicketId
         && (forall id :: id in tickets0 ==> !FiledUnder(tickets0, id, sid))
         && tickets == tickets0[newTicketId := SessionTicket(message, reply, aid, sid, customer, now)]
  }

  /** Some ticket is already filed under the session. */
  ghost predicate HasThread(tickets: map<Id, Ticket>, sessionId: string) {
    exists tid :: FiledUnder(tickets, tid, sessionId)
  }

  /** When the exchange can be filed: on a continuing session both new messages must pass the
      message validators (the corrected append), on a first message the new ticket must pass the
      ticket schema. */
  ghost predicate Fileable(tickets: map<Id, Ticket>, message: string, reply: string, aid: Id, sid: string,
                           customer: Customer, now: int)
  {
    if HasThread(tickets, sid) then
      MessageValid(Message(message, FromUser, now)) && MessageValid(Message(reply, FromAgent, now))
    else
      TicketValid(SessionTicket(message, reply, aid, sid, customer, now))
  }

  /** The ticket half of the handler: append the exchange to the session's ticket, or file a new
      ticket; a message the ticket schema rejects (500) changes nothing. */
  method FileExchange(db: Database, message: string, reply: string, aid: Id, sid: string, customer: Customer,
                      now: nat, newTicketId: Id)
    returns (ok: bool, ghost threadId: Id)
    requires db.Valid()
    requires newTicketId !in db.tickets
    modifies db
    ensures db.Valid()
    ensures db.agents == old(db.agents) && db.users == old(db.users)
    ensures !ok ==> db.tickets == old(db.tickets)
    ensures ok ==> Filed(old(db.tickets), db.tickets, message, reply, aid, sid, customer, now, newTicketId, threadId)
    ensures ok <==> Fileable(old(db.tickets), message, reply, aid, sid, customer, now)
  {
    threadId := newTicketId;
    if tid :| tid in db.tickets && FiledUnder(db.tickets, tid, sid) {
      var t := db.tickets[tid];
      var u := AppendExchange(t, message, reply, now);
      if !(MessageValid(Message(message, FromUser, now)) && MessageValid(Message(reply, FromAgent, now))) {
        return false, threadId;
      }
      AppendExchangeValid(t, message, reply, now);
      PutTicket(db.tickets, tid, u);
      db.tickets := db.tickets[tid := u];
      threadId := tid;
    } else {
      var t := SessionTicket(message, reply, aid, sid, customer, now);
      if !TicketValid(t) {
        return false, threadId;
      }
      PutTicket(db.tickets, newTicketId, t);
      db.tickets := db.tickets[newTicketId := t];
    }
    ok := true;
  }

  /**
    `sendMessage`. Validation comes first (400), then the agent lookup (404, then 400 when inactive),
    then the upstream call (500 on failure); only then is the session's ticket found or created and
    the agent's counters bumped. A rejected message (a Mongoose validation failure, 500) leaves
    everything untouched. `threadId` names the ticket that received the exchange.
  */
  method SendMessage(db: Database, req: ChatRequest, ip: Option<string>, env: Lyzr.Env,
                     post: Lyzr.Request -> Lyzr.Upstream, now: nat, newTicketId: Id)
    returns (r: Result<ChatReply>, ghost threadId: Id)
    requires db.Valid()
    requires newTicketId !in db.tickets
    modifies db
    ensures db.Valid()
    ensures db.users == old(db.users)
    ensures !ValidChat(req) ==> r == Err(400)
    ensures ValidChat(req) && req.agentId.value !in old(db.agents) ==> r == Err(404)
    ensures ValidChat(req) && req.agentId.value in old(db.agents) && !old(db.agents)[req.agentId.value].isActive ==> r == Err(400)
    ensures r.Err? ==> db.agents == old(db.agents) && db.tickets == old(db.tickets)
    ensures r.Ok? ==> Relayed(old(db.agents), old(db.tickets), db.agents, db.tickets, req, ip, env, post, now, newTicketId, threadId, r.value)
    ensures ValidChat(req) && req.agentId.value in old(db.agents) && old(db.agents)[req.agentId.value].isActive
            && UpstreamReply(old(db.agents)[req.agentId.value], req.message.value,
                 FinalSessionId(req.sessionId, old(db.agents)[req.agentId.value].lyzrConfig.agentId, ip, now), ip, env, post).None?
            ==> r == Err(500)
    ensures ValidChat(req) && req.agentId.value in old(db.agents) && old(db.agents)[req.agentId.value].isActive
            ==> var a := old(db.agents)[req.agentId.value];
                var sid := FinalSessionId(req.sessionId, a.lyzrConfig.agentId, ip, now);
                var reply := UpstreamReply(a, req.message.value, sid, ip, env, post);
                reply.Some? ==> (r.Ok? <==> Fileable(old(db.tickets), req.message.value, reply.value, req.agentId.value,
                                                      sid, CustomerOf(req), now))
  {
    threadId := newTicketId;
    if !ValidChat(req) {
      return Err(400), threadId;
    }
    var aid := req.agentId.value;
    var message := req.message.value;
    if aid !in db.agents {
      return Err(404), threadId;
    }
    var a := db.agents[aid];
    if !a.isActive {
      return Err(400), threadId;
    }
    var sid := FinalSessionId(req.sessionId, a.lyzrConfig.agentId, ip, now);
    var reply := UpstreamReply(a, message, sid, ip, env, post);
    if reply.None? {
      return Err(500), threadId;
    }
    var ok;
    ok, threadId := FileExchange(db, message, reply.value, aid, sid, CustomerOf(req), now, newTicketId);
    if !ok {
      return Err(500), threadId;
    }
    var b := CountChat(a, req.sessionId, now);
    CountChatKeepsAgent(a, req.sessionId, now);
    ReplaceAgent(db.agents, aid, b);
    db.agents := db.agents[aid := b];
    r := Ok(ChatReply(reply.value, sid, aid, now));
  }

  /** The append as the handler issues it: `findByIdAndUpdate` runs no validators, so the exchange is
      stored whatever its length or emptiness. */
  function AppendUnvalidated(tickets: map<Id, Ticket>, id: Id, message: string, reply: string, now: int): map<Id, Ticket>
    requires id in tickets
  {
    tickets[id := AppendExchange(tickets[id], message, reply, now)]
  }

  /** A 2001-character message. */
  function LongMessage(): (m: string)
    ensures |m| == 2001
  {
    seq(2001, _ => 'a')
  }

  /** A valid ticket with one exchange, to continue. */
  function SampleTicket(): (t: Ticket)
    ensures TicketValid(t)
  {
    var t := Ticket("Hello", "Hello", Open, Medium, "General Support", "agent", None, None, Some("s1"),
      [Message("Hello", FromUser, 0), Message("Hi", FromAgent, 0)], None, [], NoCustomer, NewAnalytics, 0, 0);
    assert MessagesValid(t.messages);
    t
  }

  /** The long message cannot open a session: the new ticket fails validation (HTTP 500). */
  lemma LongMessageRejectedOnCreate()
    ensures !TicketValid(SessionTicket(LongMessage(), "hi", "agent", "s1", NoCustomer, 0))
  {
    var t := SessionTicket(LongMessage(), "hi", "agent", "s1", NoCustomer, 0);
    assert !MessageValid(t.messages[0]);
  }

  /** Yet the same message continuing a session is stored, turning a valid ticket into one that
      breaks the 2000-character bound on messages. */
  lemma UnvalidatedAppendBreaksBound()
    ensures !TicketValid(AppendUnvalidated(map["t1" := SampleTicket()], "t1", LongMessage(), "Hi", 1)["t1"])
  {
    var u := AppendUnvalidated(map["t1" := SampleTicket()], "t1", LongMessage(), "Hi", 1)["t1"];
    assert u.messages[2] == Message(LongMessage(), FromUser, 1);
    assert !MessageValid(u.messages[2]);
  }

  /** The customer fields a new session's ticket takes from the request body. */
  function CustomerOf(req: ChatRequest): Customer {
    if req.customer.Some? then req.customer.value else NoCustomer
  }
}
