/**
  The agent endpoints: the request schemas, creation with its upstream-id uniqueness check, the
  caller's list newest first, and the owner-scoped lookup, update, deletion and activity toggle.
*/
module AgentController {
  import opened Wrappers
  import opened AgentModel
  import opened Store
  import Lists
  import Text

  // ---------------------------------------------------------------------------------------------
  // the schemas

  /** `lyzrConfig` as sent. */
  datatype LyzrInput = LyzrInput(agentId: Option<string>, apiEndpoint: Option<string>, apiKey: Option<string>)

  /** The request body of create and update; the enum fields arrive already parsed. */
  datatype AgentInput = AgentInput(
    name: Option<string>,
    description: Option<string>,
    lyzrConfig: Option<LyzrInput>,
    widget: Option<WidgetSettings>,
    domains: Option<seq<string>>)

  predicate IsAsciiLetter(c: char) {
    'a' <= c <= 'z' || 'A' <= c <= 'Z'
  }

  predicate IsSchemeChar(c: char) {
    IsAsciiLetter(c) || '0' <= c <= '9' || c == '+' || c == '-' || c == '.'
  }

  /** What the URL check needs of an endpoint: a scheme (a letter, then letters, digits, '+', '-'
      or '.') followed by ':'. */
  predicate IsUrl(s: string) {
    |s| >= 2 && IsAsciiLetter(s[0])
    && exists k :: 1 <= k < |s| && s[k] == ':' && forall j :: 1 <= j < k ==> IsSchemeChar(s[j])
  }

  /** The nested `lyzrConfig` object: a non-empty agent id and key and a URL endpoint. */
  predicate ValidLyzrInput(l: LyzrInput) {
    l.agentId.Some? && |l.agentId.value| >= 1
    && l.apiEndpoint.Some? && IsUrl(l.apiEndpoint.value)
    && l.apiKey.Some? && |l.apiKey.value| >= 1
  }

  /** The nested `widget` object: every field optional, the colour a hex colour, title at most 50,
      welcome message at most 200, placeholder at most 100 characters. */
  predicate ValidWidgetInput(w: WidgetSettings) {
    (w.primaryColor.Some? ==> IsHexColor(w.primaryColor.value))
    && (w.welcomeMessage.Some? ==> |w.welcomeMessage.value| <= MaxWelcome)
    && (w.placeholder.Some? ==> |w.placeholder.value| <= MaxPlaceholder)
    && (w.title.Some? ==> |w.title.value| <= MaxWidgetTitle)
  }

  /** `createAgentSchema.partial()`: each top-level field optional, each given field checked as in
      the create schema (a given `lyzrConfig` still needs all three of its fields). */
  predicate ValidAgentUpdate(u: AgentInput) {
    (u.name.Some? ==> 2 <= |u.name.value| <= MaxName)
    && (u.description.Some? ==> |u.description.value| <= MaxDescription)
    && (u.lyzrConfig.Some? ==> ValidLyzrInput(u.lyzrConfig.value))
    && (u.widget.Some? ==> ValidWidgetInput(u.widget.value))
  }

  /** `createAgentSchema`: the update schema plus a required name and `lyzrConfig`. */
  predicate ValidAgentInput(u: AgentInput) {
    ValidAgentUpdate(u) && u.name.Some? && u.lyzrConfig.Some?
  }

  /** A widget object that passes the request schema passes the document validators. */
  lemma WidgetInputValid(w: WidgetSettings)
    requires ValidWidgetInput(w)
    ensures WidgetValid(w) && WidgetValid(WithSchemaDefaults(w))
  {
  }

  function LyzrOf(l: LyzrInput): LyzrConfig
    requires ValidLyzrInput(l)
  {
    LyzrConfig(l.agentId.value, l.apiEndpoint.value, l.apiKey.value)
  }

  /** The `name` and `domains` checks the document validators add on top of the request schema:
      a name that trims to nothing, or a non-empty domain that fails the pattern. */
  predicate ValidatorsRefuse(u: AgentInput) {
    (u.name.Some? && Text.Trim(u.name.value) == "")
    || (u.domains.Some? && !DomainsValid(u.domains.value))
  }

  // ---------------------------------------------------------------------------------------------
  // createAgent

  /** The document `Agent.create` stores: name and description trimmed, widget defaults filled in,
      active, zero counters, owned by the caller. */
  function NewAgent(u: AgentInput, owner: Id, now: int): Agent
    requires ValidAgentInput(u)
  {
    Agent(
      name := Text.Trim(u.name.value),
      description := if u.description.Some? then Some(Text.Trim(u.description.value)) else None,
      owner := owner,
      lyzrConfig := LyzrOf(u.lyzrConfig.value),
      widget := WithSchemaDefaults(if u.widget.Some? then u.widget.value else NoWidgetSettings),
      domains := if u.domains.Some? then u.domains.value else [],
      isActive := true,
      analytics := NewAgentAnalytics,
      trainingData := [],
      lastTrainingUpdate := None,
      optimization := None,
      createdAt := now,
      updatedAt := now)
  }

  /** A created agent passes validation exactly when the validators raise nothing; it starts active
      with zero counters and belongs to its creator. */
  lemma NewAgentValid(u: AgentInput, owner: Id, now: int)
    requires ValidAgentInput(u)
    ensures AgentValid(NewAgent(u, owner, now)) <==> !ValidatorsRefuse(u)
    ensures var a := NewAgent(u, owner, now);
            a.owner == owner && a.isActive && a.analytics.totalChats == 0 && a.analytics.totalMessages == 0
  {
    var a := NewAgent(u, owner, now);
    NewAgentBounded(u, owner, now);
    assert AgentValid(a) <==> 0 < |a.name| && DomainsValid(a.domains);
  }

  /** The checks of a created agent that the request schema already guarantees. */
  lemma NewAgentBounded(u: AgentInput, owner: Id, now: int)
    requires ValidAgentInput(u)
    ensures var a := NewAgent(u, owner, now);
            a.name == Text.Trim(u.name.value) && |a.name| <= MaxName
            && (a.description.Some? ==> |a.description.value| <= MaxDescription)
            && a.lyzrConfig.agentId != "" && a.lyzrConfig.apiEndpoint != "" && a.lyzrConfig.apiKey != ""
            && WidgetValid(a.widget)
            && a.domains == (if u.domains.Some? then u.domains.value else [])
  {
    TrimShortens(u.name.value);
    if u.description.Some? {
      TrimShortens(u.description.value);
    }
    WidgetInputValid(if u.widget.Some? then u.widget.value else NoWidgetSettings);
  }

  lemma TrimShortens(s: string)
    ensures |Text.Trim(s)| <= |s|
  {
  }

  /** Some stored agent already uses this upstream agent id. */
  predicate LyzrIdTaken(agents: map<Id, Agent>, lyzrId: string) {
    exists o :: o in agents && agents[o].lyzrConfig.agentId == lyzrId
  }

  /** `createAgent`: 400 on a schema violation or an upstream id already in use (by any owner),
      500 when the document validators refuse; otherwise the new agent, owned by the caller. */
  method CreateAgent(db: Database, caller: Id, u: AgentInput, now: int, newId: Id) returns (r: Result<Agent>)
    requires db.Valid() && newId !in db.agents
    modifies db
    ensures db.Valid()
    ensures db.tickets == old(db.tickets) && db.users == old(db.users)
    ensures !ValidAgentInput(u) ==> r == Err(400)
    ensures ValidAgentInput(u) && LyzrIdTaken(old(db.agents), u.lyzrConfig.value.agentId.value) ==> r == Err(400)
    ensures ValidAgentInput(u) && !LyzrIdTaken(old(db.agents), u.lyzrConfig.value.agentId.value) ==>
              (r.Ok? <==> !ValidatorsRefuse(u))
    ensures ValidAgentInput(u) && !LyzrIdTaken(old(db.agents), u.lyzrConfig.value.agentId.value) && ValidatorsRefuse(u) ==>
              r == Err(500)
    ensures r.Err? ==> db.agents == old(db.agents)
    ensures r.Ok? ==> ValidAgentInput(u) && r.value == NewAgent(u, caller, now)
                      && db.agents == old(db.agents)[newId := r.value]
  {
    if !ValidAgentInput(u) {
      return Err(400);
    }
    if LyzrIdTaken(db.agents, u.lyzrConfig.value.agentId.value) {
      return Err(400);
    }
    var a := NewAgent(u, caller, now);
    NewAgentValid(u, caller, now);
    if ValidatorsRefuse(u) {
      return Err(500);
    }
    PutAgent(db.agents, newId, a);
    db.agents := db.agents[newId := a];
    r := Ok(a);
  }

  // ---------------------------------------------------------------------------------------------
  // getAgents, getAgent, deleteAgent

  function CreatedAtKey(agents: map<Id, Agent>): Id -> int {
    id => if id in agents then agents[id].createdAt else 0
  }

  /** `getAgents`: the caller's agents, each once, newest first. */
  method GetAgents(db: Database, caller: Id) returns (ids: seq<Id>)
    ensures Lists.NoDuplicates(ids)
    ensures forall id :: id in ids <==> Owns(db.agents, caller, id)
    ensures Lists.SortedDesc(ids, CreatedAtKey(db.agents))
  {
    var all := Store.Ids(db.agents);
    var agents := db.agents;
    var mine := (id: Id) => Owns(agents, caller, id);
    var owned := Lists.Filter(all, mine);
    Lists.FilterNoDuplicates(all, mine);
    ids := Lists.SortDesc(owned, CreatedAtKey(agents));
    Lists.PermutationNoDuplicates(owned, ids);
    forall id ensures id in ids <==> id in owned {
      assert id in ids <==> id in multiset(ids);
      assert id in owned <==> id in multiset(owned);
    }
  }

  /** `getAgent`: the agent when the caller owns it, 404 otherwise. */
  method GetAgent(db: Database, caller: Id, id: Id) returns (r: Result<Agent>)
    ensures Owns(db.agents, caller, id) ==> r == Ok(db.agents[id])
    ensures !Owns(db.agents, caller, id) ==> r == Err(404)
  {
    if Owns(db.agents, caller, id) {
      r := Ok(db.agents[id]);
    } else {
      r := Err(404);
    }
  }

  /** `deleteAgent`: removes the caller's agent, 404 otherwise; its tickets are left in place. */
  method DeleteAgent(db: Database, caller: Id, id: Id) returns (r: Result<()>)
    requires db.Valid()
    modifies db
    ensures db.Valid()
    ensures db.tickets == old(db.tickets) && db.users == old(db.users)
    ensures Owns(old(db.agents), caller, id) ==> r == Ok(()) && db.agents == old(db.agents) - {id}
    ensures !Owns(old(db.agents), caller, id) ==> r == Err(404) && db.agents == old(db.agents)
  {
    if Owns(db.agents, caller, id) {
      db.agents := db.agents - {id};
      r := Ok(());
    } else {
      r := Err(404);
    }
  }

  // ---------------------------------------------------------------------------------------------
  // updateAgent

  /** The stored agent after `findOneAndUpdate` with the validated body: given top-level fields
      replace the stored ones whole (name and description trimmed by their setters); a given
      `widget` object replaces the stored one without schema defaults. */
  function ApplyAgentUpdate(a: Agent, u: AgentInput, now: int): Agent
    requires ValidAgentUpdate(u)
  {
    a.(name := if u.name.Some? then Text.Trim(u.name.value) else a.name,
       description := if u.description.Some? then Some(Text.Trim(u.description.value)) else a.description,
       lyzrConfig := if u.lyzrConfig.Some? then LyzrOf(u.lyzrConfig.value) else a.lyzrConfig,
       widget := if u.widget.Some? then u.widget.value else a.widget,
       domains := if u.domains.Some? then u.domains.value else a.domains,
       updatedAt := now)
  }

  /** An update never touches the owner, the activity flag, the counters or the creation time, and a
      valid agent stays valid when the validators raise nothing. */
  lemma UpdateKeeps(a: Agent, u: AgentInput, now: int)
    requires ValidAgentUpdate(u)
    ensures var b := ApplyAgentUpdate(a, u, now);
            b.owner == a.owner && b.isActive == a.isActive && b.analytics == a.analytics
            && b.createdAt == a.createdAt && b.trainingData == a.trainingData
    ensures AgentValid(a) && !ValidatorsRefuse(u) ==> AgentValid(ApplyAgentUpdate(a, u, now))
  {
    if AgentValid(a) && !ValidatorsRefuse(u) {
      UpdatedFieldsValid(a, u, now);
    }
  }

  /** The validity half of `UpdateKeeps`, field by field. */
  lemma UpdatedFieldsValid(a: Agent, u: AgentInput, now: int)
    requires ValidAgentUpdate(u) && AgentValid(a) && !ValidatorsRefuse(u)
    ensures AgentValid(ApplyAgentUpdate(a, u, now))
  {
    var b := ApplyAgentUpdate(a, u, now);
    if u.name.Some? {
      TrimShortens(u.name.value);
    }
    assert 0 < |b.name| <= MaxName;
    if u.description.Some? {
      TrimShortens(u.description.value);
    }
    assert b.description.Some? ==> |b.description.value| <= MaxDescription;
    if u.widget.Some? {
      WidgetInputValid(u.widget.value);
    }
    assert WidgetValid(b.widget);
    assert DomainsValid(b.domains);
  }

  /** Another agent already uses the upstream id the update would store. */
  predicate UpdateClashes(agents: map<Id, Agent>, id: Id, u: AgentInput)
    requires ValidAgentUpdate(u)
  {
    u.lyzrConfig.Some?
    && exists o :: o in agents && o != id && agents[o].lyzrConfig.agentId == u.lyzrConfig.value.agentId.value
  }

  /** `updateAgent`: 400 on a schema violation; 500 when the validators refuse; 404 when the caller
      owns no such agent; 500 when the new upstream id belongs to another agent (the unique index);
      otherwise the updated agent, stored. */
  method UpdateAgent(db: Database, caller: Id, id: Id, u: AgentInput, now: int) returns (r: Result<Agent>)
    requires db.Valid()
    modifies db
    ensures db.Valid()
    ensures db.tickets == old(db.tickets) && db.users == old(db.users)
    ensures !ValidAgentUpdate(u) ==> r == Err(400)
    ensures ValidAgentUpdate(u) && ValidatorsRefuse(u) ==> r == Err(500)
    ensures ValidAgentUpdate(u) && !ValidatorsRefuse(u) && !Owns(old(db.agents), caller, id) ==> r == Err(404)
    ensures ValidAgentUpdate(u) && !ValidatorsRefuse(u) && Owns(old(db.agents), caller, id) ==>
              (r.Ok? <==> !UpdateClashes(old(db.agents), id, u))
    ensures r.Err? ==> db.agents == old(db.agents)
    ensures r.Ok? ==> ValidAgentUpdate(u) && Owns(old(db.agents), caller, id)
                      && r.value == ApplyAgentUpdate(old(db.agents)[id], u, now)
                      && db.agents == old(db.agents)[id := r.value]
  {
    if !ValidAgentUpdate(u) {
      return Err(400);
    }
    if ValidatorsRefuse(u) {
      return Err(500);
    }
    if !Owns(db.agents, caller, id) {
      return Err(404);
    }
    if UpdateClashes(db.agents, id, u) {
      return Err(500);
    }
    var b := ApplyAgentUpdate(db.agents[id], u, now);
    UpdateKeeps(db.agents[id], u, now);
    PutAgent(db.agents, id, b);
    db.agents := db.agents[id := b];
    r := Ok(b);
  }

  // ---------------------------------------------------------------------------------------------
  // toggleAgent

  /** `agent.isActive = !agent.isActive; agent.save()`: the flag flips and `save` refreshes the
      update time. */
  function Toggled(a: Agent, now: int): Agent {
    a.(isActive := !a.isActive, updatedAt := now)
  }

  /** Toggling twice restores every field but the update time. */
  lemma ToggleTwice(a: Agent, t1: int, t2: int)
    ensures Toggled(Toggled(a, t1), t2) == a.(updatedAt := t2)
    ensures Toggled(a, t1).isActive != a.isActive
  {
  }

  /** `toggleAgent`: flips the caller's agent's activity, 404 otherwise. */
  method ToggleAgent(db: Database, caller: Id, id: Id, now: int) returns (r: Result<Agent>)
    requires db.Valid()
    modifies db
    ensures db.Valid()
    ensures db.tickets == old(db.tickets) && db.users == old(db.users)
    ensures !Owns(old(db.agents), caller, id) ==> r == Err(404) && db.agents == old(db.agents)
    ensures Owns(old(db.agents), caller, id) ==>
              r == Ok(Toggled(old(db.agents)[id], now)) && db.agents == old(db.agents)[id := r.value]
  {
    if !Owns(db.agents, caller, id) {
      return Err(404);
    }
    var b := Toggled(db.agents[id], now);
    ReplaceAgent(db.agents, id, b);
    db.agents := db.agents[id := b];
    r := Ok(b);
  }
}
