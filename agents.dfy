/** The agent endpoints (`/api/agents`): listing, lookup, creation, partial
    update, deletion and per-agent statistics. */
module Agents {
  import opened Common
  import opened Records
  import opened Query
  import Store

  /** `ORDER BY created_at`: oldest agent first. */
  predicate CreationOrder(a: Agent, b: Agent) {
    a.createdAt <= b.createdAt
  }

  lemma CreationOrderIsTotalPreorder()
    ensures TotalPreorder(CreationOrder)
  {
  }

  /** The optional `session_id` filter (skipped when `None` or `""`). */
  function OfSession(sessionId: Option<string>): Agent -> bool {
    (a: Agent) => !Truthy(sessionId) || a.sessionId == sessionId.value
  }

  /** `GET /agents`: the agents of the given session (all agents when no
      session is given), oldest first. */
  function ListAgents(agents: seq<Agent>, sessionId: Option<string>): (r: seq<Agent>)
    ensures forall a :: a in r <==> a in agents && (Truthy(sessionId) ==> a.sessionId == sessionId.value)
    ensures multiset(r) == multiset(Filter(agents, OfSession(sessionId)))
    ensures Sorted(r, CreationOrder)
  {
    var selected := Filter(agents, OfSession(sessionId));
    CreationOrderIsTotalPreorder();
    SortBySorted(selected, CreationOrder);
    SortBy(selected, CreationOrder)
  }

  /** `GET /agents/{id}`: the agent with that id, or 404. */
  function GetAgent(agents: seq<Agent>, id: string): (r: Result<Agent>)
    ensures r.Ok? ==> r.value in agents && r.value.id == id
    ensures r.Err? <==> forall a :: a in agents ==> a.id != id
    ensures r.Err? ==> r.error == NotFound("Agent not found")
  {
    match Store.Find(agents, AgentKey, id)
    case Some(i) => Ok(agents[i])
    case None => Err(NotFound("Agent not found"))
  }

  /** `POST /agents`: 404 when the session does not exist; otherwise a new
      agent copying id, session, persona, status (default `idle`) and
      worktree from the request, with the column defaults for the rest. */
  method CreateAgent(db: Store.Database, req: AgentCreate, now: Time) returns (r: Result<Agent>)
    requires db.Valid()
    modifies db`agents
    ensures db.Valid()
    ensures Store.Find(db.sessions, SessionKey, req.sessionId).None? ==>
              r == Err(NotFound("Session not found")) && db.agents == old(db.agents)
    ensures (Store.Find(db.sessions, SessionKey, req.sessionId).Some?
             && Store.Find(old(db.agents), AgentKey, req.id).Some?) ==>
              r == Err(DuplicateKey(req.id)) && db.agents == old(db.agents)
    ensures (Store.Find(db.sessions, SessionKey, req.sessionId).Some?
             && Store.Find(old(db.agents), AgentKey, req.id).None?) ==> r.Ok?
    ensures r.Ok? ==> db.agents == old(db.agents) + [r.value]
    ensures r.Ok? ==>
              && r.value.id == req.id && r.value.sessionId == req.sessionId
              && r.value.persona == req.persona
              && r.value.status == req.status.GetOr(DefaultAgentStatus)
              && r.value.worktree == req.worktree
              && r.value.currentTask == None && r.value.iteration == InitialIteration
              && r.value.cost == InitialCost && r.value.lastActivity == None
              && r.value.createdAt == now
  {
    if Store.Find(db.sessions, SessionKey, req.sessionId).None? {
      return Err(NotFound("Session not found"));
    }
    var agent := Agent(
      req.id, req.sessionId, req.persona, req.status.GetOr(DefaultAgentStatus),
      None, InitialIteration, InitialCost, req.worktree, None, now);
    if Store.Find(db.agents, AgentKey, req.id).Some? {
      return Err(DuplicateKey(req.id));
    }
    Store.AppendFreshKey(db.agents, AgentKey, agent);
    db.agents := db.agents + [agent];
    r := Ok(agent);
  }

  /** The agent after a PATCH: the given fields overwritten, persona,
      session, worktree and creation time untouched, and the last activity
      set to the time of the request even when no field was given. */
  function UpdatedAgent(a: Agent, u: AgentUpdate, now: Time): (r: Agent)
    ensures r.id == a.id && r.sessionId == a.sessionId && r.persona == a.persona
    ensures r.worktree == a.worktree && r.createdAt == a.createdAt
    ensures r.status == u.status.GetOr(a.status)
    ensures r.currentTask == u.currentTask.GetOr(a.currentTask)
    ensures r.iteration == u.iteration.GetOr(a.iteration)
    ensures r.cost == u.cost.GetOr(a.cost)
    ensures r.lastActivity == Some(now)
  {
    a.(status := u.status.GetOr(a.status),
       currentTask := u.currentTask.GetOr(a.currentTask),
       iteration := u.iteration.GetOr(a.iteration),
       cost := u.cost.GetOr(a.cost),
       lastActivity := Some(now))
  }

  /** One item of `update_data.model_dump(exclude_unset=True)`. */
  datatype AgentField =
    | StatusField(status: string)
    | CurrentTaskField(currentTask: Option<string>)
    | IterationField(iteration: int)
    | CostField(cost: Cost)

  /** Which attribute a field item writes. */
  function Kind(f: AgentField): nat {
    match f
    case StatusField(_) => 0
    case CurrentTaskField(_) => 1
    case IterationField(_) => 2
    case CostField(_) => 3
  }

  /** The attributes a sequence of field items writes. */
  function Kinds(fs: seq<AgentField>): set<nat> {
    set f | f in fs :: Kind(f)
  }

  /** The attributes written from position `i` on: the one at `i` and
      those after it. */
  lemma KindsFrom(fs: seq<AgentField>, i: nat)
    requires i < |fs|
    ensures Kinds(fs[i..]) == {Kind(fs[i])} + Kinds(fs[i + 1..])
  {
    assert fs[i..] == [fs[i]] + fs[i + 1..];
  }

  /** The given fields of an update, each with its value, in the schema's
      declaration order: exactly the attributes the client sent. */
  function GivenFields(u: AgentUpdate): seq<AgentField> {
    var status := match u.status case Provided(s) => [StatusField(s)] case Omitted => [];
    var task := match u.currentTask case Provided(t) => [CurrentTaskField(t)] case Omitted => [];
    var iteration := match u.iteration case Provided(n) => [IterationField(n)] case Omitted => [];
    var cost := match u.cost case Provided(c) => [CostField(c)] case Omitted => [];
    status + task + iteration + cost
  }

  /** Every field item carries the value the client sent for it. */
  lemma GivenFieldValue(u: AgentUpdate, f: AgentField)
    requires f in GivenFields(u)
    ensures match f
            case StatusField(s) => u.status == Provided(s)
            case CurrentTaskField(t) => u.currentTask == Provided(t)
            case IterationField(n) => u.iteration == Provided(n)
            case CostField(c) => u.cost == Provided(c)
  {
  }

  /** An update's field items write exactly the attributes the client sent. */
  lemma GivenFieldsKinds(u: AgentUpdate)
    ensures 0 in Kinds(GivenFields(u)) <==> u.status.Provided?
    ensures 1 in Kinds(GivenFields(u)) <==> u.currentTask.Provided?
    ensures 2 in Kinds(GivenFields(u)) <==> u.iteration.Provided?
    ensures 3 in Kinds(GivenFields(u)) <==> u.cost.Provided?
  {
    var fs := GivenFields(u);
    if u.status.Provided? {
      assert StatusField(u.status.value) in fs;
    }
    if u.currentTask.Provided? {
      assert CurrentTaskField(u.currentTask.value) in fs;
    }
    if u.iteration.Provided? {
      assert IterationField(u.iteration.value) in fs;
    }
    if u.cost.Provided? {
      assert CostField(u.cost.value) in fs;
    }
  }

  /** The body of `update_agent` on a found row: `setattr` every given field
      in turn, then refresh the last activity. */
  method ApplyAgentUpdate(a: Agent, u: AgentUpdate, now: Time) returns (r: Agent)
    ensures r == UpdatedAgent(a, u, now)
  {
    var status, currentTask, iteration, cost := a.status, a.currentTask, a.iteration, a.cost;
    var fields := GivenFields(u);
    GivenFieldsKinds(u);
    for i := 0 to |fields|
      invariant 0 !in Kinds(fields[i..]) ==> status == u.status.GetOr(a.status)
      invariant 1 !in Kinds(fields[i..]) ==> currentTask == u.currentTask.GetOr(a.currentTask)
      invariant 2 !in Kinds(fields[i..]) ==> iteration == u.iteration.GetOr(a.iteration)
      invariant 3 !in Kinds(fields[i..]) ==> cost == u.cost.GetOr(a.cost)
    {
      KindsFrom(fields, i);
      GivenFieldValue(u, fields[i]);
      match fields[i]
      case StatusField(s) => status := s;
      case CurrentTaskField(t) => currentTask := t;
      case IterationField(n) => iteration := n;
      case CostField(c) => cost := c;
    }
    r := a.(status := status, currentTask := currentTask, iteration := iteration, cost := cost,
            lastActivity := Some(now));
  }

  /** `PATCH /agents/{id}`: 404 and no change for an unknown id; otherwise
      the row is replaced by its updated version. */
  method UpdateAgent(db: Store.Database, id: string, u: AgentUpdate, now: Time) returns (r: Result<Agent>)
    requires db.Valid()
    modifies db`agents
    ensures db.Valid()
    ensures Store.Find(old(db.agents), AgentKey, id).None? ==>
              r == Err(NotFound("Agent not found")) && db.agents == old(db.agents)
    ensures Store.Find(old(db.agents), AgentKey, id).Some? ==>
              var i := Store.Find(old(db.agents), AgentKey, id).value;
              && r == Ok(UpdatedAgent(old(db.agents)[i], u, now))
              && db.agents == old(db.agents)[i := r.value]
  {
    var found := Store.Find(db.agents, AgentKey, id);
    if found.None? {
      return Err(NotFound("Agent not found"));
    }
    var i := found.value;
    var agent := ApplyAgentUpdate(db.agents[i], u, now);
    Store.ReplaceSameKey(db.agents, AgentKey, i, agent);
    db.agents := db.agents[i := agent];
    r := Ok(agent);
  }

  /** `DELETE /agents/{id}`: 404 and no change for an unknown id; otherwise
      the row is gone and `GET /agents/{id}` answers 404. */
  method DeleteAgent(db: Store.Database, id: string) returns (r: Result<string>)
    requires db.Valid()
    modifies db`agents
    ensures db.Valid()
    ensures Store.Find(old(db.agents), AgentKey, id).None? ==>
              r == Err(NotFound("Agent not found")) && db.agents == old(db.agents)
    ensures Store.Find(old(db.agents), AgentKey, id).Some? ==>
              && r == Ok(id)
              && db.agents == Store.RemoveAt(old(db.agents), Store.Find(old(db.agents), AgentKey, id).value)
              && GetAgent(db.agents, id) == Err(NotFound("Agent not found"))
  {
    var found := Store.Find(db.agents, AgentKey, id);
    if found.None? {
      return Err(NotFound("Agent not found"));
    }
    Store.RemoveAtForgetsKey(db.agents, AgentKey, found.value);
    db.agents := Store.RemoveAt(db.agents, found.value);
    r := Ok(id);
  }

  /** Deleting one agent leaves every other agent retrievable, unchanged. */
  lemma DeleteKeepsOthers(agents: seq<Agent>, i: nat, id: string)
    requires Store.UniqueKeys(agents, AgentKey)
    requires i < |agents| && id != agents[i].id
    ensures GetAgent(Store.RemoveAt(agents, i), id) == GetAgent(agents, id)
  {
    Store.RemoveAtKeepsOthers(agents, AgentKey, i, id);
  }

  datatype AgentStats = AgentStats(
    agentId: string,
    persona: string,
    totalIterations: int,
    totalCost: Cost,
    status: string,
    uptime: int)

  /** `GET /agents/{id}/stats`: 404 for an unknown agent; otherwise its
      persona and status verbatim, its iteration counter and cost as the
      totals, and the seconds since it was created. */
  function GetAgentStats(agents: seq<Agent>, id: string, now: Time): (r: Result<AgentStats>)
    ensures r.Err? <==> GetAgent(agents, id).Err?
    ensures r.Err? ==> r.error == NotFound("Agent not found")
    ensures r.Ok? ==>
              var a := GetAgent(agents, id).value;
              && r.value.agentId == id && r.value.persona == a.persona
              && r.value.totalIterations == a.iteration && r.value.totalCost == a.cost
              && r.value.status == a.status && r.value.uptime == now - a.createdAt
  {
    match GetAgent(agents, id)
    case Err(e) => Err(e)
    case Ok(a) => Ok(AgentStats(id, a.persona, a.iteration, a.cost, a.status, now - a.createdAt))
  }
}
