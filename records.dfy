/** The rows of the dashboard database and the request bodies of its API,
    with the column and schema defaults of the backend. */
module Records {
  import opened Common

  // ---------------------------------------------------------------- rows

  /** One swarm run. */
  datatype Session = Session(
    id: string,
    startedAt: Time,
    prompt: string,
    totalCost: Cost,
    status: string)

  /** One agent taking part in a session. */
  datatype Agent = Agent(
    id: string,
    sessionId: string,
    persona: string,
    status: string,
    currentTask: Option<string>,
    iteration: int,
    cost: Cost,
    worktree: Option<string>,
    lastActivity: Option<Time>,
    createdAt: Time)

  /** One entry of the task queue. */
  datatype Task = Task(
    id: string,
    sessionId: string,
    agentId: Option<string>,
    taskType: string,
    status: string,
    priority: int,
    payload: Option<Json>,
    result: Option<Json>,
    createdAt: Time,
    startedAt: Option<Time>,
    completedAt: Option<Time>)

  /** One message between agents. */
  datatype Message = Message(
    id: string,
    sessionId: string,
    fromAgent: string,
    toAgent: string,
    messageType: string,
    subject: Option<string>,
    body: Option<Json>,
    read: bool,
    createdAt: Time)

  /** One tracked pull request. */
  datatype PullRequest = PullRequest(
    id: string,
    sessionId: string,
    agentId: Option<string>,
    prNumber: Option<int>,
    title: Option<string>,
    status: Option<string>,
    branch: Option<string>,
    createdAt: Time,
    mergedAt: Option<Time>)

  /** One streamed log line; its id is the table's integer row id. */
  datatype LogEntry = LogEntry(
    id: int,
    sessionId: string,
    agentId: Option<string>,
    level: string,
    message: string,
    data: Option<Json>,
    createdAt: Time)

  // ------------------------------------------------------------ defaults

  const DefaultSessionStatus := "running"
  const DefaultAgentStatus := "idle"
  const DefaultTaskPriority := 5
  const InitialCost: Cost := 0.0
  const InitialIteration := 0

  // The four task statuses the queue views know.
  const Pending := "pending"
  const InProgress := "in_progress"
  const Completed := "completed"
  const Failed := "failed"

  /** The four statuses are four different strings. */
  lemma StatusesDistinct()
    ensures Pending != InProgress && Pending != Completed && Pending != Failed
    ensures InProgress != Completed && InProgress != Failed && Completed != Failed
  {
    assert |Pending| == 7 && |InProgress| == 11 && |Completed| == 9 && |Failed| == 6;
  }

  /** The task queue view: tasks grouped by their status. */
  datatype TaskQueue = TaskQueue(
    pending: seq<Task>,
    inProgress: seq<Task>,
    completed: seq<Task>,
    failed: seq<Task>)

  // --------------------------------------------------------- request bodies

  datatype SessionCreate = SessionCreate(id: string, prompt: string, status: Field<string>)

  datatype AgentCreate = AgentCreate(
    id: string,
    sessionId: string,
    persona: string,
    status: Field<string>,
    worktree: Option<string>)

  /** A PATCH body for an agent: only the given fields are written. */
  datatype AgentUpdate = AgentUpdate(
    status: Field<string>,
    currentTask: Field<Option<string>>,
    iteration: Field<int>,
    cost: Field<Cost>)

  datatype TaskCreate = TaskCreate(
    id: string,
    sessionId: string,
    agentId: Option<string>,
    taskType: string,
    priority: Field<int>,
    payload: Option<Json>)

  /** A PATCH body for a task: only the given fields are written. */
  datatype TaskUpdate = TaskUpdate(
    status: Field<string>,
    agentId: Field<Option<string>>,
    result: Field<Option<Json>>)

  // ----------------------------------------------------------- key functions

  function SessionKey(s: Session): string { s.id }
  function AgentKey(a: Agent): string { a.id }
  function TaskKey(t: Task): string { t.id }
}
