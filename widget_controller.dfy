/**
  The public widget endpoints: serving the widget script with its injected configuration (behind the
  not-found, inactive and domain gates), the configuration endpoint, and the page-view and
  interaction counters.
*/
module WidgetController {
  import opened Wrappers
  import opened AgentModel
  import opened Store
  import Text

  // ---------------------------------------------------------------------------------------------
  // the gate

  /** The request headers the gate reads. */
  datatype Headers = Headers(origin: Option<string>, referer: Option<string>)

  /** `req.headers.origin || req.headers.referer` */
  function RequestOrigin(h: Headers): Option<string> {
    if Truthy(h.origin) then h.origin else h.referer
  }

  /** `domains.some(domain => origin.includes(domain) || domain === '*')` */
  function SomeDomainMatches(domains: seq<string>, origin: string): (b: bool)
    ensures b <==> exists i :: 0 <= i < |domains| && (Text.Includes(origin, domains[i]) || domains[i] == "*")
    decreases |domains|
  {
    if |domains| == 0 then false
    else if Text.Includes(origin, domains[0]) || domains[0] == "*" then true
    else
      var b := SomeDomainMatches(domains[1..], origin);
      assert forall i :: 1 <= i < |domains| ==> domains[i] == domains[1..][i - 1];
      b
  }

  datatype Gate = Admit | Refuse(status: int)

  /** The checks `serveWidget` makes before it builds anything, in their order: the agent must exist
      (404), be active (403), and, when it lists domains and the request names an origin, one of
      them must occur in that origin or be '*' (403). */
  function WidgetGate(agents: map<Id, Agent>, agentId: Id, h: Headers): (g: Gate)
    ensures g == Admit || g == Refuse(403) || g == Refuse(404)
    ensures agentId !in agents <==> g == Refuse(404)
    ensures agentId in agents && !agents[agentId].isActive ==> g == Refuse(403)
    ensures agentId in agents && agents[agentId].isActive ==>
              (g == Admit <==>
                 |agents[agentId].domains| == 0 || !Truthy(RequestOrigin(h))
                 || exists i :: 0 <= i < |agents[agentId].domains|
                                && (Text.Includes(RequestOrigin(h).value, agents[agentId].domains[i])
                                    || agents[agentId].domains[i] == "*"))
  {
    if agentId !in agents then Refuse(404)
    else
      var a := agents[agentId];
      if !a.isActive then Refuse(403)
      else if |a.domains| > 0 && Truthy(RequestOrigin(h)) && !SomeDomainMatches(a.domains, RequestOrigin(h).value) then Refuse(403)
      else Admit
  }

  /** '*' is not a valid domain, so no stored agent lists it and the wildcard branch of the gate
      never decides anything. */
  lemma WildcardNeverStored(a: Agent)
    requires AgentValid(a)
    ensures forall i :: 0 <= i < |a.domains| ==> a.domains[i] != "*"
  {
    forall i | 0 <= i < |a.domains| ensures a.domains[i] != "*" {
      if a.domains[i] != "" {
        DomainChars(a.domains[i]);
        assert '*' in "*";
      }
    }
  }

  /** For a stored (hence valid) agent the gate is a plain substring test on the origin. */
  lemma StoredAgentGate(agents: map<Id, Agent>, agentId: Id, h: Headers)
    requires agentId in agents && AgentValid(agents[agentId]) && agents[agentId].isActive
    requires |agents[agentId].domains| > 0 && Truthy(RequestOrigin(h))
    ensures WidgetGate(agents, agentId, h) == Admit <==>
              exists i :: 0 <= i < |agents[agentId].domains| && Text.Includes(RequestOrigin(h).value, agents[agentId].domains[i])
  {
    WildcardNeverStored(agents[agentId]);
  }

  /** An empty entry, which the domain validator lets through, occurs in every origin: it opens the
      gate to all pages. */
  lemma EmptyDomainAdmitsAll(agents: map<Id, Agent>, agentId: Id, h: Headers)
    requires agentId in agents && agents[agentId].isActive && "" in agents[agentId].domains
    ensures WidgetGate(agents, agentId, h) == Admit
  {
    if Truthy(RequestOrigin(h)) {
      var i :| 0 <= i < |agents[agentId].domains| && agents[agentId].domains[i] == "";
      assert Text.IsPrefix("", RequestOrigin(h).value);
      assert Text.Includes(RequestOrigin(h).value, agents[agentId].domains[i]);
    }
  }

  /** The test is a substring test, not a host comparison: a look-alike origin that merely contains
      a listed domain is admitted. */
  lemma LookalikeOriginAdmitted(agents: map<Id, Agent>, agentId: Id)
    requires agentId in agents && agents[agentId].isActive && agents[agentId].domains == ["example.com"]
    ensures WidgetGate(agents, agentId, Headers(Some("https://example.com.evil.net"), None)) == Admit
  {
    var origin := "https://example.com.evil.net";
    assert origin[8..8 + |"example.com"|] == "example.com";
    assert Text.OccursAt(origin, "example.com", 8);
    Text.IncludesIff(origin, "example.com");
  }

  // ---------------------------------------------------------------------------------------------
  // the served configuration

  /** `agentConfig` as `serveWidget` builds it. */
  datatype ServedConfig = ServedConfig(
    agentId: string,
    apiUrl: string,
    title: string,
    subtitle: string,
    welcomeMessage: string,
    placeholder: string,
    theme: string,
    primaryColor: string,
    position: string)

  const ServedTitle := "Support Chat"
  const Subtitle := "We're here to help"
  const ServedWelcome := "Hello! How can I help you today?"

  function ThemeOr(t: Option<Theme>): string {
    if t.Some? then ThemeName(t.value) else "light"
  }

  function PositionOr(p: Option<Position>): string {
    if p.Some? then PositionName(p.value) else "bottom-right"
  }

  /** Each field falls back to its own default when the stored value is absent or empty. */
  function ServeConfig(agentId: Id, a: Agent, backendUrl: string): ServedConfig {
    ServedConfig(
      agentId := agentId,
      apiUrl := backendUrl + "/api",
      title := OrElse(a.widget.title, ServedTitle),
      subtitle := Subtitle,
      welcomeMessage := OrElse(a.widget.welcomeMessage, ServedWelcome),
      placeholder := OrElse(a.widget.placeholder, DefaultPlaceholder),
      theme := ThemeOr(a.widget.theme),
      primaryColor := OrElse(a.widget.primaryColor, DefaultColor),
      position := PositionOr(a.widget.position))
  }

  /** An agent whose widget object lost every field is served the endpoint's own defaults. */
  lemma ServedDefaults(agentId: Id, a: Agent, backendUrl: string)
    requires a.widget == NoWidgetSettings
    ensures ServeConfig(agentId, a, backendUrl)
            == ServedConfig(agentId, backendUrl + "/api", "Support Chat", "We're here to help",
                            "Hello! How can I help you today?", "Type your message...", "light",
                            "#3b82f6", "bottom-right")
  {
  }

  /** An agent created without widget settings carries the schema defaults, and those win over the
      endpoint's fallbacks: it is served 'Chat Support' and 'Hi! How can I help you today?'. */
  lemma StoredDefaultsWin(agentId: Id, a: Agent, backendUrl: string)
    requires a.widget == WithSchemaDefaults(NoWidgetSettings)
    ensures ServeConfig(agentId, a, backendUrl).title == "Chat Support"
    ensures ServeConfig(agentId, a, backendUrl).welcomeMessage == "Hi! How can I help you today?"
    ensures ServeConfig(agentId, a, backendUrl).theme == "light"
  {
  }

  /** What reaches the page from a stored agent is always a valid colour and a title of at most 50
      characters, a welcome message of at most 200 and a placeholder of at most 100. */
  lemma ServedConfigBounded(agentId: Id, a: Agent, backendUrl: string)
    requires AgentValid(a)
    ensures var c := ServeConfig(agentId, a, backendUrl);
            IsHexColor(c.primaryColor) && |c.title| <= MaxWidgetTitle
            && |c.welcomeMessage| <= MaxWelcome && |c.placeholder| <= MaxPlaceholder
  {
  }

  /** Changing one stored widget field changes only the matching served field. */
  lemma FieldsIndependent(agentId: Id, a: Agent, title: Option<string>, backendUrl: string)
    ensures var c := ServeConfig(agentId, a, backendUrl);
            var d := ServeConfig(agentId, a.(widget := a.widget.(title := title)), backendUrl);
            d == c.(title := d.title)
  {
  }

  // ---------------------------------------------------------------------------------------------
  // JSON.stringify of the configuration

  /** A hexadecimal digit as `JSON.stringify` writes it, in lower case. */
  function HexDigit(d: nat): char
    requires d < 16
  {
    if d < 10 then ('0' as int + d) as char else ('a' as int + d - 10) as char
  }

  /** The value of a hexadecimal digit of either case, as a JSON parser reads it. */
  function HexValue(ch: char): Option<nat> {
    if '0' <= ch <= '9' then Some(ch as int - '0' as int)
    else if 'a' <= ch <= 'f' then Some(ch as int - 'a' as int + 10)
    else if 'A' <= ch <= 'F' then Some(ch as int - 'A' as int + 10)
    else None
  }

  /** The code unit written by the four hex digits of a `\uXXXX` escape. */
  function HexValue4(h: string): Option<nat>
    requires |h| == 4
  {
    var d0, d1, d2, d3 := HexValue(h[0]), HexValue(h[1]), HexValue(h[2]), HexValue(h[3]);
    if d0.None? || d1.None? || d2.None? || d3.None? then None
    else Some(((d0.value * 16 + d1.value) * 16 + d2.value) * 16 + d3.value)
  }

  /** One character inside a JSON string literal, as `JSON.stringify` writes it: the quote, the
      backslash and the control characters with a short form are escaped by name, the other control
      characters below U+0020 as `\u00xx`, everything else as itself. */
  function EscapeChar(c: char): string {
    if c == '"' then ['\\', '"']
    else if c == '\\' then ['\\', '\\']
    else if c == '\U{8}' then ['\\', 'b']
    else if c == '\U{C}' then ['\\', 'f']
    else if c == '\n' then ['\\', 'n']
    else if c == '\r' then ['\\', 'r']
    else if c == '\t' then ['\\', 't']
    else if c < ' ' then ['\\', 'u', '0', '0', HexDigit(c as int / 16), HexDigit(c as int % 16)]
    else [c]
  }

  function Escape(s: string): string
    decreases |s|
  {
    if |s| == 0 then [] else EscapeChar(s[0]) + Escape(s[1..])
  }

  /** The reading side: the characters a JSON parser recovers from a string literal's body, or
      `None` when the body is malformed (a bare quote, a raw control character, an unknown escape,
      a bad `\u` escape). A `\u` escape of a surrogate, which only a pair of them can spell, is
      refused too: a Dafny string holds no surrogates. */
  function Unescape(s: string): Option<string>
    decreases |s|
  {
    if |s| == 0 then Some([])
    else if s[0] == '"' || s[0] < ' ' then None
    else if s[0] != '\\' then
      var rest := Unescape(s[1..]);
      if rest.None? then None else Some([s[0]] + rest.value)
    else if |s| < 2 then None
    else if s[1] == 'u' then
      if |s| < 6 then None
      else
        var v := HexValue4(s[2..6]);
        var rest := Unescape(s[6..]);
        if v.None? || (0xD800 <= v.value <= 0xDFFF) || rest.None? then None
        else Some([v.value as char] + rest.value)
    else
      var c := match s[1]
               case '"' => Some('"')
               case '\\' => Some('\\')
               case '/' => Some('/')
               case 'b' => Some('\U{8}')
               case 'f' => Some('\U{C}')
               case 'n' => Some('\n')
               case 'r' => Some('\r')
               case 't' => Some('\t')
               case _ => None;
      var rest := Unescape(s[2..]);
      if c.None? || rest.None? then None else Some([c.value] + rest.value)
  }

  /** What reading back one escaped character gives. */
  function ConsRead(c: char, t: string): Option<string> {
    if Unescape(t).Some? then Some([c] + Unescape(t).value) else None
  }

  /** Reading back one escaped character. */
  lemma UnescapeCons(c: char, t: string)
    ensures Unescape(EscapeChar(c) + t) == ConsRead(c, t)
  {
    if c == '"' || c == '\\' || c == '\U{8}' || c == '\U{C}' || c == '\n' || c == '\r' || c == '\t' {
      UnescapeNamed(c, t);
    } else if c < ' ' {
      UnescapeHex(c, t);
    } else {
      var u := EscapeChar(c) + t;
      assert u[0] == c && u[1..] == t;
    }
  }

  /** A character escaped by name reads back. */
  lemma UnescapeNamed(c: char, t: string)
    requires c == '"' || c == '\\' || c == '\U{8}' || c == '\U{C}' || c == '\n' || c == '\r' || c == '\t'
    ensures Unescape(EscapeChar(c) + t) == ConsRead(c, t)
  {
    var u := EscapeChar(c) + t;
    assert u[0] == '\\' && u[1] != 'u' && u[2..] == t;
  }

  /** A control character escaped as `\u00xx` reads back. */
  lemma UnescapeHex(c: char, t: string)
    requires c < ' ' && c != '\U{8}' && c != '\U{C}' && c != '\n' && c != '\r' && c != '\t'
    ensures Unescape(EscapeChar(c) + t) == ConsRead(c, t)
  {
    var n := c as int;
    var u := EscapeChar(c) + t;
    assert u[0] == '\\' && u[1] == 'u' && u[6..] == t;
    HexDigitValue(n / 16);
    HexDigitValue(n % 16);
    assert HexValue4(u[2..6]) == Some(n);
  }

  /** Reading a written hex digit gives its value back. */
  lemma HexDigitValue(d: nat)
    requires d < 16
    ensures HexValue(HexDigit(d)) == Some(d)
  {
  }

  /** The escaped text reads back as the original: a stored title or welcome message can never end
      the injected string literal early. */
  lemma {:induction false} UnescapeEscape(s: string)
    ensures Unescape(Escape(s)) == Some(s)
    decreases |s|
  {
    if |s| > 0 {
      UnescapeEscape(s[1..]);
      UnescapeCons(s[0], Escape(s[1..]));
      assert [s[0]] + s[1..] == s;
    }
  }

  function JsonString(s: string): string {
    "\"" + Escape(s) + "\""
  }

  /** The configuration object, keys in declaration order. */
  function ConfigJson(c: ServedConfig): string {
    "{\"agentId\":" + JsonString(c.agentId)
    + ",\"apiUrl\":" + JsonString(c.apiUrl)
    + ",\"title\":" + JsonString(c.title)
    + ",\"subtitle\":" + JsonString(c.subtitle)
    + ",\"welcomeMessage\":" + JsonString(c.welcomeMessage)
    + ",\"placeholder\":" + JsonString(c.placeholder)
    + ",\"theme\":" + JsonString(c.theme)
    + ",\"primaryColor\":" + JsonString(c.primaryColor)
    + ",\"position\":" + JsonString(c.position)
    + "}"
  }

  /** The lines prepended to the widget source. */
  function Injection(backendUrl: string, c: ServedConfig): string {
    "\n// Injected Backend URL and Configuration\nwindow.LYZR_BACKEND_URL = '" + backendUrl
    + "';\nwindow.LyzrWidgetConfig = " + ConfigJson(c) + ";\n"
  }

  /** `process.env.BACKEND_URL || `${req.protocol}://${req.get('host')}`` */
  function BackendUrl(env: Option<string>, protocol: string, host: string): string {
    OrElse(env, protocol + "://" + host)
  }

  /** The script `serveWidget` sends. */
  function ServedScript(agentId: Id, a: Agent, backendUrl: string, source: string): string {
    Injection(backendUrl, ServeConfig(agentId, a, backendUrl)) + source
  }

  /** The page-view bump: `pageViews` rises by one and, the schema keeping timestamps, `updatedAt`
      becomes now; nothing else changes. */
  function CountPageView(a: Agent, now: int): Agent {
    a.(analytics := a.analytics.(pageViews := a.analytics.pageViews + 1), updatedAt := now)
  }

  /** `serveWidget`: a refused request is answered with the gate's status and changes nothing; a
      missing widget file gives 500 and changes nothing; otherwise the script is the injection
      followed by the widget source unchanged, and only this agent's `pageViews` (and `updatedAt`)
      change. */
  method ServeWidget(db: Database, agentId: Id, h: Headers, backendUrl: string, widgetSource: Option<string>,
                     now: int)
    returns (r: Result<string>)
    requires db.Valid()
    modifies db
    ensures db.Valid()
    ensures db.tickets == old(db.tickets) && db.users == old(db.users)
    ensures WidgetGate(old(db.agents), agentId, h).Refuse? ==>
              r == Err(WidgetGate(old(db.agents), agentId, h).status) && db.agents == old(db.agents)
    ensures WidgetGate(old(db.agents), agentId, h) == Admit && widgetSource.None? ==>
              r == Err(500) && db.agents == old(db.agents)
    ensures WidgetGate(old(db.agents), agentId, h) == Admit && widgetSource.Some? ==>
              var a := old(db.agents)[agentId];
              r == Ok(ServedScript(agentId, a, backendUrl, widgetSource.value))
              && db.agents == old(db.agents)[agentId := CountPageView(a, now)]
  {
    var agents := db.agents;
    var gate := WidgetGate(agents, agentId, h);
    if gate.Refuse? {
      return Err(gate.status);
    }
    var a := agents[agentId];
    if widgetSource.None? {
      return Err(500);
    }
    var script := ServedScript(agentId, a, backendUrl, widgetSource.value);
    StoreCounters(db, agentId, CountPageView(a, now).analytics, now);
    r := Ok(script);
  }

  /** Writes an agent's counters back and stamps `updatedAt`, leaving every other field and document
      as it was. */
  method StoreCounters(db: Database, agentId: Id, an: AgentAnalytics, now: int)
    requires db.Valid() && agentId in db.agents
    modifies db
    ensures db.Valid()
    ensures db.tickets == old(db.tickets) && db.users == old(db.users)
    ensures db.agents == old(db.agents)[agentId := old(db.agents)[agentId].(analytics := an, updatedAt := now)]
  {
    ReplaceAnalytics(db.agents, agentId, an, now);
    db.agents := db.agents[agentId := db.agents[agentId].(analytics := an, updatedAt := now)];
  }

  // ---------------------------------------------------------------------------------------------
  // getWidgetConfig

  /** The configuration endpoint's answer. */
  datatype PublicConfig = PublicConfig(
    agentId: string,
    title: string,
    welcomeMessage: string,
    placeholder: string,
    theme: string,
    primaryColor: string,
    position: string)

  /** Same defaults as the served script, except that the title falls back to the agent's name. */
  function PublicConfigOf(agentId: Id, a: Agent): PublicConfig {
    PublicConfig(
      agentId,
      OrElse(a.widget.title, a.name),
      OrElse(a.widget.welcomeMessage, ServedWelcome),
      OrElse(a.widget.placeholder, DefaultPlaceholder),
      ThemeOr(a.widget.theme),
      OrElse(a.widget.primaryColor, DefaultColor),
      PositionOr(a.widget.position))
  }

  /** The two endpoints agree on every field but the title, and the configuration endpoint never
      answers an empty title for a stored agent. */
  lemma PublicConfigAgrees(agentId: Id, a: Agent, backendUrl: string)
    ensures var p := PublicConfigOf(agentId, a);
            var c := ServeConfig(agentId, a, backendUrl);
            p.welcomeMessage == c.welcomeMessage && p.placeholder == c.placeholder && p.theme == c.theme
            && p.primaryColor == c.primaryColor && p.position == c.position
            && (Truthy(a.widget.title) ==> p.title == c.title)
            && (!Truthy(a.widget.title) ==> p.title == a.name && c.title == "Support Chat")
    ensures AgentValid(a) ==> PublicConfigOf(agentId, a).title != ""
  {
  }

  /** `getWidgetConfig`: 404 for an unknown agent, then 403 for an inactive one; no domain gate. */
  method GetWidgetConfig(db: Database, agentId: Id) returns (r: Result<PublicConfig>)
    ensures agentId !in db.agents ==> r == Err(404)
    ensures agentId in db.agents && !db.agents[agentId].isActive ==> r == Err(403)
    ensures agentId in db.agents && db.agents[agentId].isActive ==> r == Ok(PublicConfigOf(agentId, db.agents[agentId]))
  {
    if agentId !in db.agents {
      return Err(404);
    }
    var a := db.agents[agentId];
    if !a.isActive {
      return Err(403);
    }
    r := Ok(PublicConfigOf(agentId, a));
  }

  // ---------------------------------------------------------------------------------------------
  // trackPageView, trackInteraction

  /** `trackPageView`: `pageViews` rises by one and `lastSeen` and `updatedAt` become now;
      `findByIdAndUpdate` on an unknown id matches nothing and still succeeds. */
  method TrackPageView(db: Database, agentId: Id, now: int)
    requires db.Valid()
    modifies db
    ensures db.Valid()
    ensures db.tickets == old(db.tickets) && db.users == old(db.users)
    ensures agentId !in old(db.agents) ==> db.agents == old(db.agents)
    ensures agentId in old(db.agents) ==>
              var a := old(db.agents)[agentId];
              db.agents == old(db.agents)[agentId := a.(analytics := a.analytics.(pageViews := a.analytics.pageViews + 1, lastSeen := Some(now)),
                                                        updatedAt := now)]
  {
    if agentId in db.agents {
      var a := db.agents[agentId];
      var b := a.(analytics := a.analytics.(pageViews := a.analytics.pageViews + 1, lastSeen := Some(now)), updatedAt := now);
      ReplaceAnalytics(db.agents, agentId, b.analytics, now);
      db.agents := db.agents[agentId := b];
    }
  }

  /** A page view as the handlers' updates run under the Agent schema: its `analytics` declares only
      `totalChats`, `totalMessages` and `lastUsed`, so strict mode strips the `$inc` of `pageViews`
      (and `trackPageView`'s `$set` of `lastSeen`); only the `updatedAt` stamp of the schema's
      timestamps is written. */
  function PageViewAsWritten(a: Agent, now: int): Agent {
    a.(updatedAt := now)
  }

  /** The agent after a run of page views at the given times, as written or with the intended bump. */
  function ViewsServed(a: Agent, times: seq<int>, asWritten: bool): Agent
    decreases |times|
  {
    if |times| == 0 then a
    else ViewsServed(if asWritten then PageViewAsWritten(a, times[0]) else CountPageView(a, times[0]), times[1..], asWritten)
  }

  /** As written, however many page views are served, no counter moves. */
  lemma {:induction false} PageViewsAsWrittenUncounted(a: Agent, times: seq<int>)
    ensures ViewsServed(a, times, true).analytics == a.analytics
    ensures ViewsServed(a, times, true).analytics.pageViews == a.analytics.pageViews
    decreases |times|
  {
    if |times| > 0 {
      PageViewsAsWrittenUncounted(PageViewAsWritten(a, times[0]), times[1..]);
    }
  }

  /** With the intended bump, `pageViews` counts every page view served and no other counter moves. */
  lemma {:induction false} PageViewsCounted(a: Agent, times: seq<int>)
    ensures ViewsServed(a, times, false).analytics == a.analytics.(pageViews := a.analytics.pageViews + |times|)
    decreases |times|
  {
    if |times| > 0 {
      PageViewsCounted(CountPageView(a, times[0]), times[1..]);
    }
  }

  /** The update document `trackInteraction` assembles: always `$set` of `lastUsed`, plus at most
      one `$inc`. */
  datatype CounterUpdate = CounterUpdate(lastUsed: int, chats: int, messages: int)

  function InteractionUpdate(kind: Option<string>, now: int): (u: CounterUpdate)
    ensures u.lastUsed == now
    ensures u.chats == (if kind == Some("chat_opened") then 1 else 0)
    ensures u.messages == (if kind == Some("message_sent") then 1 else 0)
    ensures u.chats + u.messages <= 1
  {
    if kind == Some("chat_opened") then CounterUpdate(now, 1, 0)
    else if kind == Some("message_sent") then CounterUpdate(now, 0, 1)
    else CounterUpdate(now, 0, 0)
  }

  function ApplyCounters(a: AgentAnalytics, u: CounterUpdate): AgentAnalytics {
    a.(lastUsed := Some(u.lastUsed), totalChats := a.totalChats + u.chats, totalMessages := a.totalMessages + u.messages)
  }

  /** `trackInteraction`: `lastUsed` is always set; 'chat_opened' raises only `totalChats`,
      'message_sent' only `totalMessages`, any other type neither; page views never change and
      `updatedAt` becomes now. */
  method TrackInteraction(db: Database, agentId: Id, kind: Option<string>, now: int)
    requires db.Valid()
    modifies db
    ensures db.Valid()
    ensures db.tickets == old(db.tickets) && db.users == old(db.users)
    ensures agentId !in old(db.agents) ==> db.agents == old(db.agents)
    ensures agentId in old(db.agents) ==>
              agentId in db.agents &&
              var a := old(db.agents)[agentId];
              var n := db.agents[agentId].analytics;
              db.agents == old(db.agents)[agentId := a.(analytics := n, updatedAt := now)]
              && n.lastUsed == Some(now)
              && n.totalChats == a.analytics.totalChats + (if kind == Some("chat_opened") then 1 else 0)
              && n.totalMessages == a.analytics.totalMessages + (if kind == Some("message_sent") then 1 else 0)
              && n.pageViews == a.analytics.pageViews && n.lastSeen == a.analytics.lastSeen
  {
    var update := InteractionUpdate(kind, now);
    if agentId in db.agents {
      var a := db.agents[agentId];
      var b := a.(analytics := ApplyCounters(a.analytics, update), updatedAt := now);
      ReplaceAnalytics(db.agents, agentId, b.analytics, now);
      db.agents := db.agents[agentId := b];
    }
  }
}
