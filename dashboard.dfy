/** The session, dashboard and log endpoints of the application module:
    listing and creating sessions, their partial update, the assembled
    dashboard of one session, and the log stream. */
module Dashboard {
  import opened Common
  import opened Records
  import opened Query
  import Store
  import Tasks
  import Agents
  import Registry
  import Websocket

  // ------------------------------------------------------------- sessions

  /** The session as the API reports it, with the seconds since it started. */
  datatype SessionInfo = SessionInfo(
    id: string,
    startedAt: Time,
    prompt: string,
    totalCost: Cost,
    status: string,
    elapsedTime: int)

  function SessionView(s: Session, now: Time): SessionInfo {
    SessionInfo(s.id, s.startedAt, s.prompt, s.totalCost, s.status, now - s.startedAt)
  }

  /** `ORDER BY started_at DESC`: newest session first. */
  predicate NewestFirst(a: Session, b: Session) {
    a.startedAt >= b.startedAt
  }

  /** The optional `status` filter (skipped when `None` or `""`). */
  function WithStatus(status: Option<string>): Session -> bool {
    (s: Session) => !Truthy(status) || s.status == status.value
  }

  /** The `limit` of `GET /sessions` when the query string has none. */
  const SessionListDefaultLimit := 10

  /** The rows `GET /sessions` reports: the sessions with the given status
      (all, when none is given), newest first, `limit` of them (10 when the
      query omits it) or all when fewer match, and every matching session
      left out started no later than any listed. */
  function RecentSessions(sessions: seq<Session>, status: Option<string>, limit: Option<int>): (r: seq<Session>)
    ensures var n := limit.GetOr(SessionListDefaultLimit);
            |r| == if 0 <= n < |Filter(sessions, WithStatus(status))| then n else |Filter(sessions, WithStatus(status))|
    ensures forall s :: s in r ==> s in sessions && (Truthy(status) ==> s.status == status.value)
    ensures multiset(r) <= multiset(Filter(sessions, WithStatus(status)))
    ensures forall i, j :: 0 <= i < j < |r| ==> r[i].startedAt >= r[j].startedAt
    ensures forall s :: s in sessions && (Truthy(status) ==> s.status == status.value) && s !in r ==>
              forall i :: 0 <= i < |r| ==> r[i].startedAt >= s.startedAt
  {
    assert TotalPreorder(NewestFirst);
    TopBy(sessions, WithStatus(status), NewestFirst, limit.GetOr(SessionListDefaultLimit))
  }

  /** `GET /sessions`: the recent sessions, each with its elapsed time. */
  function ListSessions(sessions: seq<Session>, status: Option<string>, limit: Option<int>, now: Time): (r: seq<SessionInfo>)
    ensures |r| == |RecentSessions(sessions, status, limit)|
    ensures forall i :: 0 <= i < |r| ==> r[i] == SessionView(RecentSessions(sessions, status, limit)[i], now)
    ensures forall i :: 0 <= i < |r| ==> r[i].elapsedTime == now - r[i].startedAt
  {
    var rows := RecentSessions(sessions, status, limit);
    seq(|rows|, i requires 0 <= i < |rows| => SessionView(rows[i], now))
  }

  /** `GET /sessions/{id}`: the session with that id, or 404. */
  function GetSessionInfo(sessions: seq<Session>, id: string, now: Time): (r: Result<SessionInfo>)
    ensures r.Err? <==> forall s :: s in sessions ==> s.id != id
    ensures r.Err? ==> r.error == NotFound("Session not found")
    ensures r.Ok? ==> exists s :: s in sessions && s.id == id && r.value == SessionView(s, now)
  {
    match Store.Find(sessions, SessionKey, id)
    case None => Err(NotFound("Session not found"))
    case Some(i) => Ok(SessionView(sessions[i], now))
  }

  /** `POST /sessions`: a new session with the requested id, prompt and
      status (default `running`), started now, at zero cost, reported with
      elapsed time 0; a taken id is refused and nothing is stored. */
  method CreateSession(db: Store.Database, req: SessionCreate, now: Time) returns (r: Result<SessionInfo>)
    requires db.Valid()
    modifies db`sessions
    ensures db.Valid()
    ensures Store.Find(old(db.sessions), SessionKey, req.id).Some? ==>
              r == Err(DuplicateKey(req.id)) && db.sessions == old(db.sessions)
    ensures Store.Find(old(db.sessions), SessionKey, req.id).None? ==>
              var s := Session(req.id, now, req.prompt, InitialCost, req.status.GetOr(DefaultSessionStatus));
              && db.sessions == old(db.sessions) + [s]
              && r == Ok(SessionInfo(req.id, now, req.prompt, InitialCost, s.status, 0))
  {
    if Store.Find(db.sessions, SessionKey, req.id).Some? {
      return Err(DuplicateKey(req.id));
    }
    var session := Session(req.id, now, req.prompt, InitialCost, req.status.GetOr(DefaultSessionStatus));
    Store.AppendFreshKey(db.sessions, SessionKey, session);
    db.sessions := db.sessions + [session];
    r := Ok(SessionInfo(session.id, session.startedAt, session.prompt, session.totalCost, session.status, 0));
  }

  /** The session after `PATCH /sessions/{id}`: the status only when the new
      one is non-empty, the cost whenever one is given, zero included. */
  function UpdatedSession(s: Session, status: Option<string>, totalCost: Option<Cost>): (r: Session)
    ensures r.id == s.id && r.startedAt == s.startedAt && r.prompt == s.prompt
    ensures r.status == if Truthy(status) then status.value else s.status
    ensures r.totalCost == if totalCost.Some? then totalCost.value else s.totalCost
  {
    s.(status := if Truthy(status) then status.value else s.status,
       totalCost := if totalCost.Some? then totalCost.value else s.totalCost)
  }

  /** An empty status changes nothing, a zero cost is written. */
  lemma EmptyStatusZeroCost(s: Session)
    ensures UpdatedSession(s, Some(""), Some(0.0)) == s.(totalCost := 0.0)
    ensures UpdatedSession(s, None, None) == s
  {
  }

  /** `PATCH /sessions/{id}`: 404 and no change for an unknown id;
      otherwise the row's status and cost are assigned in place. */
  method UpdateSession(db: Store.Database, id: string, status: Option<string>, totalCost: Option<Cost>)
    returns (r: Result<string>)
    requires db.Valid()
    modifies db`sessions
    ensures db.Valid()
    ensures Store.Find(old(db.sessions), SessionKey, id).None? ==>
              r == Err(NotFound("Session not found")) && db.sessions == old(db.sessions)
    ensures Store.Find(old(db.sessions), SessionKey, id).Some? ==>
              var i := Store.Find(old(db.sessions), SessionKey, id).value;
              && r == Ok(id)
              && db.sessions == old(db.sessions)[i := UpdatedSession(old(db.sessions)[i], status, totalCost)]
  {
    var found := Store.Find(db.sessions, SessionKey, id);
    if found.None? {
      return Err(NotFound("Session not found"));
    }
    var i := found.value;
    var session := db.sessions[i];
    if Truthy(status) {
      session := session.(status := status.value);
    }
    if totalCost.Some? {
      session := session.(totalCost := totalCost.value);
    }
    Store.ReplaceSameKey(db.sessions, SessionKey, i, session);
    db.sessions := db.sessions[i := session];
    r := Ok(id);
  }

  // ------------------------------------------------------------ dashboard

  const RecentMessageLimit := 20
  const RecentLogLimit := 50

  function AgentOf(sessionId: string): Agent -> bool {
    (a: Agent) => a.sessionId == sessionId
  }

  function TaskOf(sessionId: string): Task -> bool {
    (t: Task) => t.sessionId == sessionId
  }

  function MessageOf(sessionId: string): Message -> bool {
    (m: Message) => m.sessionId == sessionId
  }

  function UnreadOf(sessionId: string): Message -> bool {
    (m: Message) => m.sessionId == sessionId && !m.read
  }

  function PullRequestOf(sessionId: string): PullRequest -> bool {
    (p: PullRequest) => p.sessionId == sessionId
  }

  function LogOf(sessionId: string): LogEntry -> bool {
    (l: LogEntry) => l.sessionId == sessionId
  }

  predicate NewestMessageFirst(a: Message, b: Message) {
    a.createdAt >= b.createdAt
  }

  predicate NewestLogFirst(a: LogEntry, b: LogEntry) {
    a.createdAt >= b.createdAt
  }

  /** A merged PR: status `merged`. */
  predicate IsMerged(p: PullRequest) {
    p.status == Some("merged")
  }

  /** A failed PR: status `closed` and never merged. */
  predicate IsClosedUnmerged(p: PullRequest) {
    p.status == Some("closed") && p.mergedAt.None?
  }

  /** The PR counters: total, merged and failed; a PR is never both, so the
      two never add up to more than the total. */
  function PullRequestCounts(prs: seq<PullRequest>): (c: (nat, nat, nat))
    ensures c.0 == |prs|
    ensures c.1 == |Filter(prs, IsMerged)| && c.2 == |Filter(prs, IsClosedUnmerged)|
    ensures c.1 + c.2 <= c.0
  {
    DisjointFilters(prs, IsMerged, IsClosedUnmerged);
    (|prs|, |Filter(prs, IsMerged)|, |Filter(prs, IsClosedUnmerged)|)
  }

  /** A rate kept as numerator and denominator: `NoRate` is the source's 0
      for an empty denominator. */
  datatype Ratio = NoRate | Rate(num: nat, den: nat)

  /** The success rate: completed tasks over finished (completed or
      failed) ones, 0 when none is finished. */
  function SuccessRate(ts: seq<Task>): (r: Ratio)
    ensures r.NoRate? <==> forall t :: t in ts ==> t.status != Completed && t.status != Failed
    ensures r.Rate? ==> && r.num == |Filter(ts, Tasks.HasStatus(Completed))|
                        && r.den == r.num + |Filter(ts, Tasks.HasStatus(Failed))|
                        && 0 < r.den && r.num <= r.den
  {
    var completed := |Filter(ts, Tasks.HasStatus(Completed))|;
    var failed := |Filter(ts, Tasks.HasStatus(Failed))|;
    NoneFinished(ts);
    if completed + failed == 0 then NoRate else Rate(completed, completed + failed)
  }

  /** No task is counted as finished exactly when no task is completed or
      failed. */
  lemma NoneFinished(ts: seq<Task>)
    ensures |Filter(ts, Tasks.HasStatus(Completed))| + |Filter(ts, Tasks.HasStatus(Failed))| == 0 <==>
              forall t :: t in ts ==> t.status != Completed && t.status != Failed
  {
    var done := Filter(ts, Tasks.HasStatus(Completed));
    var failed := Filter(ts, Tasks.HasStatus(Failed));
    if |done| > 0 {
      assert done[0] in done;
    } else if |failed| > 0 {
      assert failed[0] in failed;
    }
  }

  datatype Metrics = Metrics(
    successRate: Ratio,
    avgIterationTime: Tasks.Mean,
    totalPrs: nat,
    mergedPrs: nat,
    failedPrs: nat,
    totalCost: Cost)

  /** The metrics block over the session's tasks and PRs. */
  function SessionMetrics(ts: seq<Task>, prs: seq<PullRequest>, totalCost: Cost): (m: Metrics)
    ensures m.totalCost == totalCost
    ensures m.totalPrs == |prs| && m.mergedPrs == |Filter(prs, IsMerged)| && m.failedPrs == |Filter(prs, IsClosedUnmerged)|
    ensures m.mergedPrs + m.failedPrs <= m.totalPrs
    ensures m.successRate.NoRate? <==> forall t :: t in ts ==> t.status != Completed && t.status != Failed
    ensures m.successRate.Rate? ==>
              && m.successRate.num == |Filter(ts, Tasks.HasStatus(Completed))|
              && m.successRate.den == m.successRate.num + |Filter(ts, Tasks.HasStatus(Failed))|
    ensures m.avgIterationTime.NoSamples? <==> forall t :: t in ts ==> !Tasks.IsTimedCompletion(t)
  {
    var counts := PullRequestCounts(prs);
    Metrics(SuccessRate(ts), Tasks.MeanCompletionTime(ts), counts.0, counts.1, counts.2, totalCost)
  }

  datatype DashboardState = DashboardState(
    session: SessionInfo,
    agents: seq<Agent>,
    tasks: TaskQueue,
    recentMessages: seq<Message>,
    pendingMessages: nat,
    metrics: Metrics,
    recentLogs: seq<LogEntry>)

  /** The session's agents, oldest first. */
  function SessionAgents(agents: seq<Agent>, sessionId: string): (r: seq<Agent>)
    ensures forall a :: a in r <==> a in agents && a.sessionId == sessionId
    ensures multiset(r) == multiset(Filter(agents, AgentOf(sessionId)))
    ensures Sorted(r, Agents.CreationOrder)
  {
    Agents.CreationOrderIsTotalPreorder();
    SortBySorted(Filter(agents, AgentOf(sessionId)), Agents.CreationOrder);
    SortBy(Filter(agents, AgentOf(sessionId)), Agents.CreationOrder)
  }

  /** The session's 20 newest messages, newest first. */
  function RecentMessages(messages: seq<Message>, sessionId: string): (r: seq<Message>)
    ensures |r| == if RecentMessageLimit < |Filter(messages, MessageOf(sessionId))|
                   then RecentMessageLimit else |Filter(messages, MessageOf(sessionId))|
    ensures Sorted(r, NewestMessageFirst)
    ensures forall m :: m in r ==> m in messages && m.sessionId == sessionId
    ensures multiset(r) <= multiset(Filter(messages, MessageOf(sessionId)))
    ensures forall m :: m in messages && m.sessionId == sessionId && m !in r ==>
              forall i :: 0 <= i < |r| ==> r[i].createdAt >= m.createdAt
  {
    assert TotalPreorder(NewestMessageFirst);
    TopBy(messages, MessageOf(sessionId), NewestMessageFirst, RecentMessageLimit)
  }

  /** The session's 50 newest log entries, newest first. */
  function RecentLogs(logs: seq<LogEntry>, sessionId: string): (r: seq<LogEntry>)
    ensures |r| == if RecentLogLimit < |Filter(logs, LogOf(sessionId))|
                   then RecentLogLimit else |Filter(logs, LogOf(sessionId))|
    ensures Sorted(r, NewestLogFirst)
    ensures forall l :: l in r ==> l in logs && l.sessionId == sessionId
    ensures multiset(r) <= multiset(Filter(logs, LogOf(sessionId)))
    ensures forall l :: l in logs && l.sessionId == sessionId && l !in r ==>
              forall i :: 0 <= i < |r| ==> r[i].createdAt >= l.createdAt
  {
    assert TotalPreorder(NewestLogFirst);
    TopBy(logs, LogOf(sessionId), NewestLogFirst, RecentLogLimit)
  }

  /** `ordered` holds exactly the session's tasks, each as often as the
      table does, in queue order
      (priority descending, then oldest first), and each bucket of `q`
      holds the tasks of `ordered` with its status, in that order. */
  ghost predicate QueueOfSession(q: TaskQueue, ordered: seq<Task>, tasks: seq<Task>, sessionId: string) {
    && (forall t :: t in ordered <==> t in tasks && t.sessionId == sessionId)
    && multiset(ordered) == multiset(Filter(tasks, TaskOf(sessionId)))
    && Sorted(ordered, Tasks.QueueOrder)
    && q.pending == Filter(ordered, Tasks.HasStatus(Pending))
    && q.inProgress == Filter(ordered, Tasks.HasStatus(InProgress))
    && q.completed == Filter(ordered, Tasks.HasStatus(Completed))
    && q.failed == Filter(ordered, Tasks.HasStatus(Failed))
  }

  /** The session's tasks in queue order and the four status buckets filled
      from them in that order; each bucket is itself in queue order. */
  method SessionTaskQueue(tasks: seq<Task>, sessionId: string) returns (ordered: seq<Task>, q: TaskQueue)
    ensures QueueOfSession(q, ordered, tasks, sessionId)
    ensures && Sorted(q.pending, Tasks.QueueOrder) && Sorted(q.inProgress, Tasks.QueueOrder)
            && Sorted(q.completed, Tasks.QueueOrder) && Sorted(q.failed, Tasks.QueueOrder)
  {
    Tasks.QueueOrderIsTotalPreorder();
    ordered := SortBy(Filter(tasks, TaskOf(sessionId)), Tasks.QueueOrder);
    SortBySorted(Filter(tasks, TaskOf(sessionId)), Tasks.QueueOrder);
    q := Tasks.BucketByStatus(ordered);
    FilterSorted(ordered, Tasks.HasStatus(Pending), Tasks.QueueOrder);
    FilterSorted(ordered, Tasks.HasStatus(InProgress), Tasks.QueueOrder);
    FilterSorted(ordered, Tasks.HasStatus(Completed), Tasks.QueueOrder);
    FilterSorted(ordered, Tasks.HasStatus(Failed), Tasks.QueueOrder);
  }

  /** `GET /dashboard/{id}`: 404 before anything else when the session does
      not exist. Otherwise the session seen now; its agents, oldest first;
      its tasks bucketed by status in queue order; its 20 newest messages
      and the count of its unread ones; its 50 newest log entries; and the
      metrics over its PRs and its tasks. */
  method GetDashboardState(db: Store.Database, sessionId: string, now: Time) returns (r: Result<DashboardState>)
    ensures Store.Find(db.sessions, SessionKey, sessionId).None? <==> r.Err?
    ensures r.Err? ==> r.error == NotFound("Session not found")
    ensures r.Ok? ==>
              var s := db.sessions[Store.Find(db.sessions, SessionKey, sessionId).value];
              && r.value.session == SessionView(s, now)
              && r.value.agents == SessionAgents(db.agents, sessionId)
              && r.value.recentMessages == RecentMessages(db.messages, sessionId)
              && r.value.pendingMessages == |Filter(db.messages, UnreadOf(sessionId))|
              && r.value.recentLogs == RecentLogs(db.logs, sessionId)
              && exists ordered: seq<Task> ::
                   && QueueOfSession(r.value.tasks, ordered, db.tasks, sessionId)
                   && r.value.metrics == SessionMetrics(ordered, Filter(db.pullRequests, PullRequestOf(sessionId)), s.totalCost)
  {
    var found := Store.Find(db.sessions, SessionKey, sessionId);
    if found.None? {
      return Err(NotFound("Session not found"));
    }
    var session := db.sessions[found.value];
    var ordered, queue := SessionTaskQueue(db.tasks, sessionId);
    var metrics := SessionMetrics(ordered, Filter(db.pullRequests, PullRequestOf(sessionId)), session.totalCost);
    r := Ok(DashboardState(
      SessionView(session, now),
      SessionAgents(db.agents, sessionId),
      queue,
      RecentMessages(db.messages, sessionId),
      |Filter(db.messages, UnreadOf(sessionId))|,
      metrics,
      RecentLogs(db.logs, sessionId)));
  }

  // ------------------------------------------------------------------ logs

  /** The optional filters of `GET /logs/{session}`: the agent and the
      level, each skipped when `None` or `""`. */
  function LogMatches(sessionId: string, agentId: Option<string>, level: Option<string>): LogEntry -> bool {
    (l: LogEntry) =>
      && l.sessionId == sessionId
      && (!Truthy(agentId) || l.agentId == Some(agentId.value))
      && (!Truthy(level) || l.level == level.value)
  }

  /** The `limit` of `GET /logs/{session}` when the query string has none. */
  const LogListDefaultLimit := 100

  /** `GET /logs/{session}`: the session's entries that pass the filters,
      newest first, `limit` of them (100 when the query omits it) or all
      when fewer match, and none left out that is newer than one returned. */
  function GetLogs(logs: seq<LogEntry>, sessionId: string, agentId: Option<string>, level: Option<string>, limit: Option<int>)
    : (r: seq<LogEntry>)
    ensures var n, matching := limit.GetOr(LogListDefaultLimit), |Filter(logs, LogMatches(sessionId, agentId, level))|;
            |r| == if 0 <= n < matching then n else matching
    ensures forall l :: l in r ==> l in logs && LogMatches(sessionId, agentId, level)(l)
    ensures multiset(r) <= multiset(Filter(logs, LogMatches(sessionId, agentId, level)))
    ensures Sorted(r, NewestLogFirst)
    ensures forall l :: l in logs && LogMatches(sessionId, agentId, level)(l) && l !in r ==>
              forall i :: 0 <= i < |r| ==> r[i].createdAt >= l.createdAt
    ensures var n := limit.GetOr(LogListDefaultLimit);
            (n < 0 || |Filter(logs, LogMatches(sessionId, agentId, level))| <= n) ==>
              forall l :: l in logs && LogMatches(sessionId, agentId, level)(l) ==> l in r
  {
    assert TotalPreorder(NewestLogFirst);
    var n := limit.GetOr(LogListDefaultLimit);
    var r := TopBy(logs, LogMatches(sessionId, agentId, level), NewestLogFirst, n);
    assert (n < 0 || |Filter(logs, LogMatches(sessionId, agentId, level))| <= n) ==>
             forall l :: l in logs && LogMatches(sessionId, agentId, level)(l) ==> l in r by {
      if n < 0 || |Filter(logs, LogMatches(sessionId, agentId, level))| <= n {
        TopByKeepsAll(logs, LogMatches(sessionId, agentId, level), NewestLogFirst, n);
      }
    }
    r
  }

  /** `POST /logs`: the entry is stored under the next row id, with no
      check that the session exists, and then pushed to the session's
      watchers as a `log.entry` event. */
  method CreateLogEntry(
    db: Store.Database, manager: Websocket.ConnectionManager,
    sessionId: string, level: string, message: string, agentId: Option<string>, data: Option<Json>,
    now: Time, failing: set<Registry.Conn>)
    returns (r: string, sent: Option<Websocket.Envelope>)
    requires db.Valid()
    modifies db`logs, manager
    ensures db.Valid()
    ensures db.logs == old(db.logs) + [LogEntry(Store.NextLogId(old(db.logs)), sessionId, agentId, level, message, data, now)]
    ensures sent == if sessionId in old(manager.sessions)
                    then Some(Websocket.Envelope(Websocket.LogEntryEvent,
                                                 Websocket.LogEntryData(agentId, level, message, data, now),
                                                 Some(sessionId), now))
                    else None
    ensures manager.State() == Registry.AfterBroadcastToSession(old(manager.State()), sessionId, failing)
    ensures r == "created"
  {
    var entry := LogEntry(Store.NextLogId(db.logs), sessionId, agentId, level, message, data, now);
    db.logs := db.logs + [entry];
    var delivered;
    sent, delivered := manager.BroadcastToSession(
      sessionId, Websocket.LogEntryEvent, Websocket.LogEntryData(agentId, level, message, data, now), now, failing);
    r := "created";
  }
}
