/**
  The client for the upstream Lyzr chat API: how a client instance picks its settings, the request
  body it posts, how it reports failure, and the session ids it mints.
*/
module Lyzr {
  import opened Wrappers
  import Text

  /** The process environment's `LYZR_API_ENDPOINT`, `LYZR_API_KEY` and `LYZR_AGENT_ID`. */
  datatype Env = Env(apiEndpoint: Option<string>, apiKey: Option<string>, agentId: Option<string>)

  /** A client instance; a setting is absent when neither the argument nor the environment gave one. */
  datatype Service = Service(apiEndpoint: Option<string>, apiKey: Option<string>, agentId: Option<string>)

  /** `a || env` for a setting: a truthy argument wins, otherwise the environment value is used. */
  function Setting(arg: Option<string>, env: Option<string>): (r: Option<string>)
    ensures Truthy(arg) ==> r == arg
    ensures !Truthy(arg) ==> r == env
  {
    if Truthy(arg) then arg else env
  }

  /** The constructor: each missing or empty argument falls back to its environment value. */
  function NewService(apiEndpoint: Option<string>, apiKey: Option<string>, agentId: Option<string>, env: Env): (s: Service)
    ensures s.apiEndpoint == Setting(apiEndpoint, env.apiEndpoint)
    ensures s.apiKey == Setting(apiKey, env.apiKey)
    ensures s.agentId == Setting(agentId, env.agentId)
  {
    Service(Setting(apiEndpoint, env.apiEndpoint), Setting(apiKey, env.apiKey), Setting(agentId, env.agentId))
  }

  /** The JSON body posted upstream; an absent `agent_id` is left out of the JSON. */
  datatype Payload = Payload(userId: string, agentId: Option<string>, sessionId: string, message: string)

  /** The HTTP request `sendMessage` makes: a POST of `body` to `endpoint` with `apiKey` in the
      `x-api-key` header; an absent setting goes out as `undefined`. */
  datatype Request = Request(endpoint: Option<string>, apiKey: Option<string>, body: Payload)

  /** What the network call yields: the reply text, or a failure of any kind (status, timeout, no
      connection). */
  datatype Upstream = Answered(response: string) | Failed

  /** The request body: `agent_id` is the per-call agent id when truthy, otherwise the instance's. */
  function BuildPayload(svc: Service, message: string, userId: string, sessionId: string, customAgentId: Option<string>): (p: Payload)
    ensures p.message == message && p.userId == userId && p.sessionId == sessionId
    ensures Truthy(customAgentId) ==> p.agentId == customAgentId
    ensures !Truthy(customAgentId) ==> p.agentId == svc.agentId
  {
    Payload(userId, if Truthy(customAgentId) then customAgentId else svc.agentId, sessionId, message)
  }

  /** `sendMessage`: posts the payload to the instance's endpoint with the instance's key through
      `post` and returns the reply; any failure surfaces as an error, never as a partial reply. */
  function SendMessage(svc: Service, post: Request -> Upstream, message: string, userId: string,
                       sessionId: string, customAgentId: Option<string>): (r: Option<string>)
    ensures var q := Request(svc.apiEndpoint, svc.apiKey, BuildPayload(svc, message, userId, sessionId, customAgentId));
            (r.None? <==> post(q).Failed?) && (r.Some? ==> r.value == post(q).response)
  {
    match post(Request(svc.apiEndpoint, svc.apiKey, BuildPayload(svc, message, userId, sessionId, customAgentId)))
    case Answered(text) => Some(text)
    case Failed => None
  }

  /** `generateSessionId(agentId, userId)` at time `now` (milliseconds): the three parts joined by '-'. */
  function SessionId(agentId: string, userId: string, now: nat): string {
    agentId + "-" + userId + "-" + Text.Decimal(now)
  }

  /** A minted session id starts with `agentId-userId-` and its last '-'-separated part is the
      timestamp's numeral, which reads back as the timestamp. */
  lemma SessionIdParts(agentId: string, userId: string, now: nat)
    ensures Text.IsPrefix(agentId + "-" + userId + "-", SessionId(agentId, userId, now))
    ensures var parts := Text.Split(SessionId(agentId, userId, now), '-');
            parts[|parts| - 1] == Text.Decimal(now)
    ensures Text.ParseDecimal(Text.Decimal(now)) == now
  {
    var d := Text.Decimal(now);
    var x := agentId + "-" + userId;
    assert SessionId(agentId, userId, now) == x + ['-'] + d;
    assert '-' !in d by {
      forall k | 0 <= k < |d| ensures d[k] != '-' { }
    }
    Text.SplitSnoc(x, d, '-');
    Text.ParseDecimalRoundTrip(now);
    var prefix := agentId + "-" + userId + "-";
    assert SessionId(agentId, userId, now)[..|prefix|] == prefix;
  }
}
