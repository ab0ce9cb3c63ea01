/**
  The dashboard's agent store: the list of agents as the frontend holds them, the selected agent
  and the loading flag, and the reducers that return the next state.
*/
module AgentStore {
  import opened Wrappers
  import opened AgentModel
  import Lists

  /** The agent as the frontend receives it. */
  datatype LyzrView = LyzrView(agentId: string, apiEndpoint: string, apiKey: string)
  datatype WidgetView = WidgetView(
    theme: Theme, primaryColor: string, position: Position,
    welcomeMessage: string, placeholder: string, title: string)
  datatype AnalyticsView = AnalyticsView(totalChats: int, totalMessages: int, lastUsed: Option<string>)
  datatype AgentView = AgentView(
    id: string, name: string, description: string, lyzrConfig: LyzrView, widget: WidgetView,
    domains: seq<string>, isActive: bool, analytics: AnalyticsView, createdAt: string, updatedAt: string)

  /** `Partial<Agent>`: the top-level keys an update carries. */
  datatype AgentPatch = AgentPatch(
    id: Option<string>, name: Option<string>, description: Option<string>, lyzrConfig: Option<LyzrView>,
    widget: Option<WidgetView>, domains: Option<seq<string>>, isActive: Option<bool>,
    analytics: Option<AnalyticsView>, createdAt: Option<string>, updatedAt: Option<string>)

  const NoPatch := AgentPatch(None, None, None, None, None, None, None, None, None, None)

  /** One key of a spread: the update's value when it carries the key, whatever the value. */
  function Over<T>(given: Option<T>, current: T): T {
    if given.Some? then given.value else current
  }

  /** `{ ...agent, ...updates }`: each key the update carries replaces the agent's whole value. */
  function Patched(a: AgentView, p: AgentPatch): AgentView {
    AgentView(
      Over(p.id, a.id), Over(p.name, a.name), Over(p.description, a.description),
      Over(p.lyzrConfig, a.lyzrConfig), Over(p.widget, a.widget), Over(p.domains, a.domains),
      Over(p.isActive, a.isActive), Over(p.analytics, a.analytics),
      Over(p.createdAt, a.createdAt), Over(p.updatedAt, a.updatedAt))
  }

  /** `{ ...p, ...q }` on two updates: the later one wins key by key. */
  function Then(p: AgentPatch, q: AgentPatch): AgentPatch {
    AgentPatch(
      if q.id.Some? then q.id else p.id,
      if q.name.Some? then q.name else p.name,
      if q.description.Some? then q.description else p.description,
      if q.lyzrConfig.Some? then q.lyzrConfig else p.lyzrConfig,
      if q.widget.Some? then q.widget else p.widget,
      if q.domains.Some? then q.domains else p.domains,
      if q.isActive.Some? then q.isActive else p.isActive,
      if q.analytics.Some? then q.analytics else p.analytics,
      if q.createdAt.Some? then q.createdAt else p.createdAt,
      if q.updatedAt.Some? then q.updatedAt else p.updatedAt)
  }

  /** An update without keys changes nothing; the same update twice is the update once; two
      updates in a row are one combined update. */
  lemma PatchLaws(a: AgentView, p: AgentPatch, q: AgentPatch)
    ensures Patched(a, NoPatch) == a
    ensures Patched(Patched(a, p), p) == Patched(a, p)
    ensures Patched(Patched(a, p), q) == Patched(a, Then(p, q))
  {
  }

  /** Fields the update does not carry keep their values. */
  lemma PatchKeepsOthers(a: AgentView, p: AgentPatch)
    ensures p.name.None? ==> Patched(a, p).name == a.name
    ensures p.widget.None? ==> Patched(a, p).widget == a.widget
    ensures p.domains.None? ==> Patched(a, p).domains == a.domains
    ensures p.isActive.None? ==> Patched(a, p).isActive == a.isActive
    ensures p.analytics.None? ==> Patched(a, p).analytics == a.analytics
    ensures p.id.None? ==> Patched(a, p).id == a.id
  {
  }

  datatype AgentState = AgentState(agents: seq<AgentView>, selectedAgent: Option<AgentView>, isLoading: bool)

  /** The store before any action: no agents, nothing selected, not loading. */
  const InitialAgentState := AgentState([], None, false)

  function SetAgents(s: AgentState, agents: seq<AgentView>): (r: AgentState)
    ensures r.agents == agents && r.selectedAgent == s.selectedAgent && r.isLoading == s.isLoading
  {
    s.(agents := agents)
  }

  /** `[...state.agents, agent]` */
  function AddAgent(s: AgentState, a: AgentView): (r: AgentState)
    ensures |r.agents| == |s.agents| + 1 && r.agents[..|s.agents|] == s.agents && r.agents[|s.agents|] == a
    ensures r.selectedAgent == s.selectedAgent && r.isLoading == s.isLoading
  {
    s.(agents := s.agents + [a])
  }

  /** `agents.map(agent => agent._id === id ? { ...agent, ...updates } : agent)` */
  function UpdateMatching(agents: seq<AgentView>, id: string, p: AgentPatch): (r: seq<AgentView>)
    ensures |r| == |agents|
    ensures forall i :: 0 <= i < |agents| ==> r[i] == if agents[i].id == id then Patched(agents[i], p) else agents[i]
    decreases |agents|
  {
    if agents == [] then []
    else [if agents[0].id == id then Patched(agents[0], p) else agents[0]] + UpdateMatching(agents[1..], id, p)
  }

  function UpdateAgent(s: AgentState, id: string, p: AgentPatch): (r: AgentState)
    ensures |r.agents| == |s.agents|
    ensures forall i :: 0 <= i < |s.agents| && s.agents[i].id != id ==> r.agents[i] == s.agents[i]
    ensures forall i :: 0 <= i < |s.agents| && s.agents[i].id == id ==> r.agents[i] == Patched(s.agents[i], p)
    ensures r.selectedAgent == s.selectedAgent && r.isLoading == s.isLoading
  {
    s.(agents := UpdateMatching(s.agents, id, p))
  }

  predicate HasId(agents: seq<AgentView>, id: string) {
    exists a :: a in agents && a.id == id
  }

  /** Updating an id no agent has leaves the list as it was. */
  lemma UpdateUnknownId(s: AgentState, id: string, p: AgentPatch)
    requires !HasId(s.agents, id)
    ensures UpdateAgent(s, id, p) == s
  {
    assert UpdateAgent(s, id, p).agents == s.agents;
  }

  function WithoutId(agents: seq<AgentView>, id: string): seq<AgentView> {
    Lists.Filter(agents, (a: AgentView) => a.id != id)
  }

  /** `agents.filter(agent => agent._id !== id)` */
  function DeleteAgent(s: AgentState, id: string): (r: AgentState)
    ensures !HasId(r.agents, id)
    ensures forall a :: a in s.agents && a.id != id ==> a in r.agents
    ensures forall a :: a in r.agents ==> a in s.agents
    ensures r.selectedAgent == s.selectedAgent && r.isLoading == s.isLoading
  {
    s.(agents := WithoutId(s.agents, id))
  }

  /** Filtering a list with one more element at its end. */
  lemma {:induction false} FilterSnoc(xs: seq<AgentView>, x: AgentView, id: string)
    ensures WithoutId(xs + [x], id) == WithoutId(xs, id) + (if x.id != id then [x] else [])
    decreases |xs|
  {
    if xs == [] {
      assert [x][1..] == [];
    } else {
      FilterSnoc(xs[1..], x, id);
      assert (xs + [x])[1..] == xs[1..] + [x];
    }
  }

  /** The kept agents stay in their relative order: deleting keeps exactly the others, in order,
      so deleting twice is deleting once, and deleting what was just added undoes the add. */
  lemma {:induction false} DeleteIdempotent(agents: seq<AgentView>, id: string)
    ensures WithoutId(WithoutId(agents, id), id) == WithoutId(agents, id)
    decreases |agents|
  {
    if agents != [] {
      DeleteIdempotent(agents[1..], id);
      if agents[0].id != id {
        assert WithoutId(agents, id) == [agents[0]] + WithoutId(agents[1..], id);
        assert ([agents[0]] + WithoutId(agents[1..], id))[1..] == WithoutId(agents[1..], id);
      }
    }
  }

  lemma DeleteUndoesAdd(s: AgentState, a: AgentView)
    ensures DeleteAgent(AddAgent(s, a), a.id) == DeleteAgent(s, a.id)
  {
    FilterSnoc(s.agents, a, a.id);
  }

  /** `UpdateMatching` never touches an entry that the delete removes or keeps wrongly: after an
      update that keeps ids, deleting the id gives the same list as deleting it first. */
  lemma {:induction false} DeleteAfterUpdate(agents: seq<AgentView>, id: string, p: AgentPatch)
    requires p.id.None?
    ensures WithoutId(UpdateMatching(agents, id, p), id) == WithoutId(agents, id)
    decreases |agents|
  {
    if agents != [] {
      DeleteAfterUpdate(agents[1..], id, p);
      var u := UpdateMatching(agents, id, p);
      assert u[1..] == UpdateMatching(agents[1..], id, p);
      assert u[0].id == agents[0].id;
    }
  }

  function SetSelectedAgent(s: AgentState, a: Option<AgentView>): (r: AgentState)
    ensures r.selectedAgent == a && r.agents == s.agents && r.isLoading == s.isLoading
  {
    s.(selectedAgent := a)
  }

  function SetLoading(s: AgentState, loading: bool): (r: AgentState)
    ensures r.isLoading == loading && r.agents == s.agents && r.selectedAgent == s.selectedAgent
  {
    s.(isLoading := loading)
  }

  /** Deleting the selected agent does not clear the selection: the store keeps a stale one. */
  lemma DeleteKeepsSelection(s: AgentState, a: AgentView)
    requires s.selectedAgent == Some(a)
    ensures DeleteAgent(s, a.id).selectedAgent == Some(a)
    ensures a !in DeleteAgent(s, a.id).agents
  {
  }
}
